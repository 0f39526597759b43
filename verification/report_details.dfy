/**
 * The single-report screen of `src/components/ReportDetails.jsx`: it reads
 * the list with `res?.reports || res || []`, picks the first report whose id,
 * turned into text, equals the route parameter, and shows a loading text
 * until one is found.
 */
module ReportDetails {
  import opened JsValues
  import opened ReportList

  /** The outcome of `reports.find(...)`. */
  datatype Lookup =
    | Found(report: Report)
    | NotFound
    /** `find` read off a value that is not an array: a TypeError inside the effect. */
    | Threw

  /** The index of the first report whose `String(id)` is `routeId`, or `|rs|` when there is none. */
  function FirstWithId(rs: seq<Report>, routeId: string): (k: nat)
    ensures k <= |rs|
    ensures forall j :: 0 <= j < k ==> IdText(rs[j].id) != routeId
    ensures k < |rs| ==> IdText(rs[k].id) == routeId
  {
    if rs == [] then 0
    else if IdText(rs[0].id) == routeId then 0
    else 1 + FirstWithId(rs[1..], routeId)
  }

  /** `(res?.reports || res || []).find(r => String(r.id) === id)`. */
  function FindReport(res: JsVal, routeId: string): (l: Lookup)
    ensures l.Threw? <==> !ReportsOrSelf(res).Arr?
    ensures l.Found? ==>
      l.report in ReportsOrSelf(res).items && IdText(l.report.id) == routeId
    ensures l.Found? ==>
      exists k :: 0 <= k < |ReportsOrSelf(res).items| && l.report == ReportsOrSelf(res).items[k] &&
        forall j :: 0 <= j < k ==> IdText(ReportsOrSelf(res).items[j].id) != routeId
    ensures l.NotFound? ==>
      forall r :: r in ReportsOrSelf(res).items ==> IdText(r.id) != routeId
  {
    var reports := ReportsOrSelf(res);
    if !reports.Arr? then Threw
    else
      var k := FirstWithId(reports.items, routeId);
      if k < |reports.items| then Found(reports.items[k]) else NotFound
  }

  /**
   * The report found is the first match, whichever envelope carried the list
   * (a bare array or a truthy `reports` field): every report before it has
   * another id text.
   */
  lemma FoundIsFirst(res: JsVal, xs: seq<Report>, routeId: string, k: nat)
    requires ReportsOrSelf(res) == Arr(xs)
    requires k < |xs| && IdText(xs[k].id) == routeId
    requires forall j :: 0 <= j < k ==> IdText(xs[j].id) != routeId
    ensures FindReport(res, routeId) == Found(xs[k])
  {
  }

  /** The same for the `{reports: [...]}` envelope the server sends. */
  lemma FoundIsFirstInEnvelope(m: map<string, JsVal>, xs: seq<Report>, routeId: string, k: nat)
    requires "reports" in m && m["reports"] == Arr(xs)
    requires k < |xs| && IdText(xs[k].id) == routeId
    requires forall j :: 0 <= j < k ==> IdText(xs[j].id) != routeId
    ensures FindReport(Obj(m), routeId) == Found(xs[k])
  {
    ReportsOrSelfField(m);
    FoundIsFirst(Obj(m), xs, routeId, k);
  }

  /** A numeric id and a string id with the same text are the same route: `String(7) === "7"`. */
  lemma NumericAndTextIdsMeet(n: nat, r: Report, s: Report)
    requires r.id == NumId(n) && s.id == StrId(NatToString(n))
    ensures FindReport(Arr([r, s]), NatToString(n)) == Found(r)
    ensures FindReport(Arr([s, r]), NatToString(n)) == Found(s)
  {
    ReportsOrSelfBareArray([r, s]);
    ReportsOrSelfBareArray([s, r]);
  }

  /** Two reports with different non-negative numeric ids are never found by the same route parameter. */
  lemma DistinctNumericIdsDistinctRoutes(a: nat, b: nat)
    requires a != b
    ensures IdText(NumId(a)) != IdText(NumId(b))
  {
    if IdText(NumId(a)) == IdText(NumId(b)) {
      NatToStringInjective(a, b);
    }
  }

  /** How the missing-keywords block renders. */
  datatype KeywordsView = Listed(keywords: seq<string>) | NoMissingKeywords

  /** `report.missingKeywords?.length > 0`: a list only when there is at least one keyword. */
  function Keywords(missing: Option<seq<string>>): (v: KeywordsView)
    ensures v.Listed? <==> missing.Some? && |missing.value| > 0
    ensures v.Listed? ==> v.keywords == missing.value
  {
    if missing.Some? && |missing.value| > 0 then Listed(missing.value) else NoMissingKeywords
  }

  /** What the screen shows. */
  datatype View = LoadingReport | Details(report: Report, keywords: KeywordsView)

  /** "Loading report..." until a report has been found; then its details. */
  function Render(report: Option<Report>): (v: View)
    ensures v.LoadingReport? <==> report.None?
    ensures v.Details? ==> v.report == report.value && v.keywords == Keywords(report.value.missingKeywords)
  {
    match report
    case None => LoadingReport
    case Some(r) => Details(r, Keywords(r.missingKeywords))
  }

  class ReportDetailsScreen {
    var report: Option<Report>

    /** Nothing found yet. */
    constructor ()
      ensures report == None
    {
      report := None;
    }

    /**
     * `loadReport` up to the call: there is no login check, so the reports of
     * the stored email are asked for even when there is none.
     */
    method StartLoad(email: Option<string>) returns (request: Option<string>)
      ensures request == email
    {
      request := email;
    }

    /**
     * `loadReport` after the call: `setReport(found)`, where a missing match
     * stores `undefined`; a non-array collection throws before `setReport`.
     */
    method ReportsArrived(res: JsVal, routeId: string)
      modifies this`report
      ensures FindReport(res, routeId).Found? ==> report == Some(FindReport(res, routeId).report)
      ensures FindReport(res, routeId).NotFound? ==> report == None
      ensures FindReport(res, routeId).Threw? ==> report == old(report)
    {
      match FindReport(res, routeId) {
        case Found(r) => report := Some(r);
        case NotFound => report := None;
        case Threw =>
      }
    }
  }

  /** Starting from the mounted state, the screen leaves "Loading report..." only for a found report. */
  lemma LoadingUnlessFound(res: JsVal, routeId: string)
    ensures Render(None).LoadingReport?
    ensures FindReport(res, routeId).Found? <==>
      Render(match FindReport(res, routeId) case Found(r) => Some(r) case _ => None).Details?
  {
  }
}
