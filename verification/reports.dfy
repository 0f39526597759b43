/**
 * The report list screen of `src/components/Reports.jsx`. The collection is
 * the `res?.reports || res || []` reading of the gateway's answer with no array
 * check, so whatever that expression yields is stored, and the view then
 * decides between loading, error, empty list, list, or a render that throws.
 */
module Reports {
  import opened JsValues
  import opened ReportList

  const LoginRequired := "Please login to view your reports."

  /** What the screen renders. */
  datatype View =
    | LoadingView
    | ErrorView(message: string)
    | EmptyView
    | ListView(cards: seq<Report>)
    | RenderThrows

  class ReportsScreen {
    var reports: JsVal
    var loading: bool
    var error: string

    /** The state before the first effect: an empty array, loading, no error. */
    constructor ()
      ensures reports == Arr([]) && loading && error == ""
    {
      reports, loading, error := Arr([]), true, "";
    }

    /** `loadReports` up to the call: without a session email the screen stops with the login message. */
    method StartLoad(email: Option<string>) returns (request: Option<string>)
      modifies this`error, this`loading
      ensures (email.None? || email.value == "") ==>
        request == None && error == LoginRequired && !loading
      ensures email.Some? && email.value != "" ==>
        request == email && error == old(error) && loading == old(loading)
    {
      if email.None? || email.value == "" {
        error := LoginRequired;
        loading := false;
        return None;
      }
      request := email;
    }

    /**
     * `loadReports` after the call: the collection becomes the first truthy of
     * `res?.reports` and `res`, which is never a falsy value, and no error is set.
     */
    method ReportsArrived(res: JsVal)
      modifies this`reports, this`loading
      ensures reports == ReportsOrSelf(res) && Truthy(reports) && !loading
    {
      reports := ReportsOrSelf(res);
      loading := false;
    }

    /**
     * `remove`: a delete button exists only on a rendered card, so the
     * collection is an array; once the gateway has answered, every report with
     * that id is dropped and the rest keep their order.
     */
    method Remove(id: ReportId)
      requires reports.Arr?
      modifies this`reports
      ensures reports == Arr(Without(old(reports).items, id))
      ensures IsSubsequence(reports.items, old(reports).items)
      ensures forall r :: r in reports.items ==> r.id != id
    {
      WithoutIsSubsequence(reports.items, id);
      reports := Arr(Without(reports.items, id));
    }
  }

  /**
   * The render: loading first, then a non-empty error, then the collection.
   * Reading `.length` and `.map` of anything but an array makes the render
   * throw; a string has a length but no `map`.
   */
  function Render(loading: bool, error: string, reports: JsVal): (v: View)
    ensures loading <==> v.LoadingView?
    ensures !loading && error != "" <==> v.ErrorView?
    ensures v.ErrorView? ==> v.message == error
    ensures v.EmptyView? <==> !loading && error == "" && reports == Arr([])
    ensures v.ListView? <==> !loading && error == "" && reports.Arr? && reports.items != []
    ensures v.ListView? ==> v.cards == reports.items
    ensures v.RenderThrows? <==> !loading && error == "" && !reports.Arr?
  {
    if loading then LoadingView
    else if error != "" then ErrorView(error)
    else if !reports.Arr? then RenderThrows
    else if reports.items == [] then EmptyView
    else ListView(reports.items)
  }

  /**
   * As written: the gateway folds a failed fetch into
   * `{status: false, message}`, which has no `reports` key, so it is stored
   * as the collection and the next render throws.
   */
  lemma FailedFetchBreaksRender(message: string)
    ensures Render(false, "", ReportsOrSelf(Obj(map["status" := Bool(false), "message" := Str(message)]))) == RenderThrows
  {
    var m := map["status" := Bool(false), "message" := Str(message)];
    ReportsOrSelfObject(m);
  }

  /** The collection with the array check the dashboard of Dashboard.jsx applies. */
  function NormaliseCorrected(res: JsVal): (c: JsVal)
    ensures c.Arr?
    ensures ReportsOrSelf(res).Arr? ==> c == ReportsOrSelf(res)
  {
    var data := ReportsOrSelf(res);
    if data.Arr? then data else Arr([])
  }

  /** Corrected: whatever the gateway answers, a render after loading never throws. */
  lemma CorrectedNeverThrows(res: JsVal, error: string)
    ensures Render(false, error, NormaliseCorrected(res)) != RenderThrows
  {
  }
}
