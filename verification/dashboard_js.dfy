/**
 * The dashboard screen of `src/components/Dashboard.js`: the report list is
 * filled from the status-gated reading of the gateway's answer, deletion only
 * filters the list when the server confirms it, and the page shows counts,
 * the three most recent reports and a 150-character preview of each analysis.
 */
module DashboardJs {
  import opened JsValues
  import opened ReportList

  const LoginRequired := "Please login to view your dashboard."
  const LoadFailed := "Failed to load reports. Please try again."
  const DeleteFailed := "Failed to delete report."
  const PreviewLength := 150

  class DashboardScreen {
    var reports: seq<Report>
    var loading: bool
    var error: JsVal

    /** The state before the first effect: no reports, loading, no error. */
    constructor ()
      ensures reports == [] && loading && error == Str("")
    {
      reports, loading, error := [], true, Str("");
    }

    /**
     * `loadReports` up to the call: without a session email the screen stops
     * with the login message and asks nothing of the gateway; otherwise it
     * clears the error and asks for the reports of that email.
     */
    method StartLoad(email: Option<string>) returns (request: Option<string>)
      modifies this`error, this`loading
      ensures (email.None? || email.value == "") ==>
        request == None && error == Str(LoginRequired) && !loading
      ensures email.Some? && email.value != "" ==>
        request == email && error == Str("") && loading == old(loading)
    {
      if email.None? || email.value == "" {
        error := Str(LoginRequired);
        loading := false;
        return None;
      }
      error := Str("");
      request := email;
    }

    /**
     * `loadReports` after the call. A truthy status or a bare array replaces
     * the list; any other answer keeps the list and records the server's
     * message or the fallback text. Loading ends in every case.
     */
    method ReportsArrived(result: JsVal)
      modifies this`reports, this`error, this`loading
      ensures !loading
      ensures StatusGated(result).Loaded? ==>
        reports == StatusGated(result).reports && error == old(error)
      ensures StatusGated(result).NotLoaded? ==>
        reports == old(reports) && error == Or(Get(result, "message"), Str(LoadFailed))
      ensures StatusGated(result).NotLoaded? ==> Truthy(error)
    {
      match StatusGated(result) {
        case Loaded(rs) =>
          reports := rs;
        case NotLoaded =>
          error := Or(Get(result, "message"), Str(LoadFailed));
      }
      loading := false;
    }

    /**
     * `remove`: a confirmed deletion drops every report with that id and keeps
     * the rest in order; a refused one keeps the list and records the message.
     */
    method Remove(id: ReportId, result: JsVal)
      modifies this`reports, this`error
      ensures StatusOk(result) ==>
        reports == Without(old(reports), id) && error == old(error)
      ensures StatusOk(result) ==>
        IsSubsequence(reports, old(reports)) && forall r :: r in reports ==> r.id != id
      ensures !StatusOk(result) ==>
        reports == old(reports) && error == Or(Get(result, "message"), Str(DeleteFailed))
    {
      if StatusOk(result) {
        WithoutIsSubsequence(reports, id);
        reports := Without(reports, id);
      } else {
        error := Or(Get(result, "message"), Str(DeleteFailed));
      }
    }
  }

  /** Whether the "View All" button is shown. */
  predicate ShowViewAll(rs: seq<Report>)
  {
    |rs| > 3
  }

  /** "View All" is offered exactly when the recent cards leave some report out. */
  lemma ViewAllIffHidden(rs: seq<Report>)
    ensures ShowViewAll(rs) <==> |Recent(rs)| < |rs|
    ensures !ShowViewAll(rs) ==> Recent(rs) == rs
  {
    RecentIsPrefix(rs);
  }

  /** The "No description" fallback of a report card. */
  function DescriptionText(r: Report): (s: string)
    ensures s != ""
    ensures r.description.Some? && r.description.value != "" ==> s == r.description.value
  {
    if r.description.Some? && r.description.value != "" then r.description.value else "No description"
  }

  /**
   * The analysis preview of a report card: a missing or empty text shows the
   * placeholder, a text of at most 150 characters is shown whole, a longer
   * one is cut to its first 150 characters followed by "...".
   */
  function AnalysisPreview(text: Option<string>): (p: string)
    ensures text.None? || text.value == "" ==> p == "No analysis available"
    ensures text.Some? && 0 < |text.value| <= PreviewLength ==> p == text.value
    ensures text.Some? && |text.value| > PreviewLength ==>
      |p| == PreviewLength + 3 && p[..PreviewLength] == text.value[..PreviewLength] && p[PreviewLength..] == "..."
  {
    if text.None? || text.value == "" then "No analysis available"
    else if |text.value| > PreviewLength then text.value[..PreviewLength] + "..."
    else text.value
  }

  /** A preview never runs past 153 characters, and a real text's preview starts with that text's beginning. */
  lemma PreviewBounded(text: Option<string>)
    ensures |AnalysisPreview(text)| <= PreviewLength + 3
    ensures text.Some? && text.value != "" ==>
      var n := if |text.value| < PreviewLength then |text.value| else PreviewLength;
      AnalysisPreview(text)[..n] == text.value[..n]
  {
  }

  /** Two long texts that agree on their first 150 characters get the same preview. */
  lemma PreviewIgnoresTail(a: string, b: string)
    requires |a| > PreviewLength && |b| > PreviewLength
    requires a[..PreviewLength] == b[..PreviewLength]
    ensures AnalysisPreview(Some(a)) == AnalysisPreview(Some(b))
  {
  }
}
