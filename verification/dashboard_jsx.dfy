/**
 * The dashboard screen of `src/components/Dashboard.jsx`: the list is the
 * `result?.reports || result || []` reading of the gateway's answer, kept only when it
 * is an array; deletion filters the list whatever the server answers; the page
 * shows counts and the first three reports with a 100-character summary.
 */
module DashboardJsx {
  import opened JsValues
  import opened JsStrings
  import opened ReportList

  const LoginRequired := "Please login to view your dashboard."
  const SummaryLength := 100

  /** `result?.reports || result || []`, then `[]` unless that is an array. */
  function Normalise(result: JsVal): (rs: seq<Report>)
    ensures ReportsOrSelf(result).Arr? ==> rs == ReportsOrSelf(result).items
    ensures !ReportsOrSelf(result).Arr? ==> rs == []
  {
    var data := ReportsOrSelf(result);
    if data.Arr? then data.items else []
  }

  /** A bare array is kept as it is, in server order. */
  lemma NormaliseBareArray(xs: seq<Report>)
    ensures Normalise(Arr(xs)) == xs
  {
    ReportsOrSelfBareArray(xs);
  }

  /** An array under a truthy `reports` key is used whatever `status` says. */
  lemma NormaliseReportsField(m: map<string, JsVal>, xs: seq<Report>)
    requires "reports" in m && m["reports"] == Arr(xs)
    ensures Normalise(Obj(m)) == xs
  {
    ReportsOrSelfField(m);
  }

  /**
   * Any object without a truthy `reports` key (a `{data: X}` envelope or the
   * gateway's `{status: false, message}` failure) reads as the empty list.
   */
  lemma NormaliseOtherObject(m: map<string, JsVal>)
    requires "reports" !in m || !Truthy(m["reports"])
    ensures Normalise(Obj(m)) == []
  {
    ReportsOrSelfObject(m);
  }

  class DashboardScreen {
    var reports: seq<Report>
    var loading: bool
    var error: string

    /** The state before the first effect: no reports, loading, no error. */
    constructor ()
      ensures reports == [] && loading && error == ""
    {
      reports, loading, error := [], true, "";
    }

    /**
     * `loadReports` up to the call: without a session email the screen stops
     * with the login message and asks nothing of the gateway. Unlike the
     * status-gated dashboard it does not clear an earlier error first.
     */
    method StartLoad(email: Option<string>) returns (request: Option<string>)
      modifies this`error, this`loading
      ensures (email.None? || email.value == "") ==>
        request == None && error == LoginRequired && !loading
      ensures email.Some? && email.value != "" ==>
        request == email && error == old(error) && loading == old(loading)
    {
      if email.None? || email.value == "" {
        error := LoginRequired;
        loading := false;
        return None;
      }
      request := email;
    }

    /** `loadReports` after the call: every answer replaces the list, and none records an error. */
    method ReportsArrived(result: JsVal)
      modifies this`reports, this`loading
      ensures reports == Normalise(result) && !loading
    {
      reports := Normalise(result);
      loading := false;
    }

    /** `remove`: once the gateway has answered, every report with that id is dropped and the rest keep their order. */
    method Remove(id: ReportId)
      modifies this`reports
      ensures reports == Without(old(reports), id)
      ensures IsSubsequence(reports, old(reports)) && forall r :: r in reports ==> r.id != id
    {
      WithoutIsSubsequence(reports, id);
      reports := Without(reports, id);
    }
  }

  /**
   * The summary line of a report card: at most the first 100 characters of the
   * summary, then "..." in every case (also when there is no summary).
   */
  function SummaryPreview(summary: Option<string>): (p: string)
    ensures |p| >= 3 && p[|p| - 3..] == "..."
    ensures |p| <= SummaryLength + 3
    ensures summary.None? ==> p == "..."
    ensures summary.Some? ==> |p| - 3 == (if |summary.value| < SummaryLength then |summary.value| else SummaryLength)
    ensures summary.Some? ==> p[..|p| - 3] == summary.value[..|p| - 3]
  {
    (if summary.Some? then Prefix(summary.value, SummaryLength) else "") + "..."
  }
}
