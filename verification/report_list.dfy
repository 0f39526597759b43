/**
 * Operations on a collection of reports that several screens share: the
 * order-preserving delete filter, the "recent reports" slice, and the two
 * ways the screens turn an untyped list response into a collection.
 */
module ReportList {
  import opened JsValues

  /** `a` is obtained from `b` by deleting elements, keeping the order of the rest. */
  predicate IsSubsequence<T(==)>(a: seq<T>, b: seq<T>)
  {
    if a == [] then true
    else if b == [] then false
    else if a[0] == b[0] then IsSubsequence(a[1..], b[1..])
    else IsSubsequence(a, b[1..])
  }

  /** `reports.filter((r) => r.id !== id)`. */
  function Without(rs: seq<Report>, id: ReportId): (r: seq<Report>)
    ensures |r| <= |rs|
    ensures forall x :: x in r ==> x in rs && x.id != id
  {
    if rs == [] then []
    else (if rs[0].id != id then [rs[0]] else []) + Without(rs[1..], id)
  }

  /** The filter keeps the surviving reports in their original order. */
  lemma {:induction false} WithoutIsSubsequence(rs: seq<Report>, id: ReportId)
    ensures IsSubsequence(Without(rs, id), rs)
  {
    if rs != [] {
      WithoutIsSubsequence(rs[1..], id);
      if rs[0].id != id {
        assert Without(rs, id) == [rs[0]] + Without(rs[1..], id);
        assert ([rs[0]] + Without(rs[1..], id))[1..] == Without(rs[1..], id);
      } else {
        assert Without(rs, id) == Without(rs[1..], id);
        SubsequenceOfTail(Without(rs[1..], id), rs);
      }
    }
  }

  /** A subsequence of the tail is a subsequence of the whole. */
  lemma {:induction false} SubsequenceOfTail<T>(a: seq<T>, b: seq<T>)
    requires b != [] && IsSubsequence(a, b[1..])
    ensures IsSubsequence(a, b)
    decreases |b|, 0
  {
    if a != [] && a[0] == b[0] {
      SubsequenceDropHead(a, b[1..]);
    }
  }

  /** Dropping the first element of a subsequence leaves a subsequence. */
  lemma {:induction false} SubsequenceDropHead<T>(a: seq<T>, c: seq<T>)
    requires a != [] && IsSubsequence(a, c)
    ensures IsSubsequence(a[1..], c)
    decreases |c|, 1
  {
    if a[0] == c[0] {
      SubsequenceOfTail(a[1..], c);
    } else {
      SubsequenceDropHead(a, c[1..]);
      SubsequenceOfTail(a[1..], c);
    }
  }

  /**
   * Exactly the reports with the given id are removed: each other report
   * keeps its number of occurrences, and the removed id occurs no more.
   */
  lemma {:induction false} WithoutCounts(rs: seq<Report>, id: ReportId, x: Report)
    ensures multiset(Without(rs, id))[x] == if x.id == id then 0 else multiset(rs)[x]
  {
    if rs != [] {
      var head := if rs[0].id != id then [rs[0]] else [];
      var tail := Without(rs[1..], id);
      WithoutCounts(rs[1..], id, x);
      assert Without(rs, id) == head + tail;
      assert multiset(head + tail) == multiset(head) + multiset(tail);
      assert rs == [rs[0]] + rs[1..];
      assert multiset(rs) == multiset([rs[0]]) + multiset(rs[1..]);
    }
  }

  /** Deleting an id that no report carries leaves the collection as it was. */
  lemma {:induction false} WithoutAbsent(rs: seq<Report>, id: ReportId)
    requires forall x :: x in rs ==> x.id != id
    ensures Without(rs, id) == rs
  {
    if rs != [] {
      assert rs[0] in rs;
      assert forall x :: x in rs[1..] ==> x in rs;
      WithoutAbsent(rs[1..], id);
      assert rs == [rs[0]] + rs[1..];
    }
  }

  /** Ids are unique within the collection. */
  predicate UniqueIds(rs: seq<Report>)
  {
    forall i, j :: 0 <= i < j < |rs| ==> rs[i].id != rs[j].id
  }

  /** With unique ids, deleting a present id removes exactly one report. */
  lemma {:induction false} WithoutUniquePresent(rs: seq<Report>, k: nat)
    requires UniqueIds(rs) && k < |rs|
    ensures |Without(rs, rs[k].id)| == |rs| - 1
  {
    var id := rs[k].id;
    if k == 0 {
      assert forall x :: x in rs[1..] ==> x.id != id by {
        forall x | x in rs[1..] ensures x.id != id {
          var j :| 0 <= j < |rs[1..]| && rs[1..][j] == x;
          assert rs[j + 1] == x;
        }
      }
      WithoutAbsent(rs[1..], id);
    } else {
      assert UniqueIds(rs[1..]) by {
        forall i, j | 0 <= i < j < |rs[1..]| ensures rs[1..][i].id != rs[1..][j].id {
          assert rs[1..][i] == rs[i + 1] && rs[1..][j] == rs[j + 1];
        }
      }
      assert rs[1..][k - 1] == rs[k];
      WithoutUniquePresent(rs[1..], k - 1);
      assert rs[0].id != id;
    }
  }

  /** `reports.slice(0, 3)`: the first three reports in server order, or all of them when fewer. */
  function Recent(rs: seq<Report>): (r: seq<Report>)
  {
    if |rs| <= 3 then rs else rs[..3]
  }

  /** The recent list is a prefix of the collection of length min(3, n). */
  lemma RecentIsPrefix(rs: seq<Report>)
    ensures |Recent(rs)| == (if |rs| < 3 then |rs| else 3)
    ensures Recent(rs) == rs[..|Recent(rs)|]
    ensures |Recent(rs)| < |rs| <==> |rs| > 3
  {
  }

  /** `res?.reports || res || []`: the collection as Dashboard.jsx, Reports.jsx, ReportDetails.jsx and Profile.jsx read it. */
  function ReportsOrSelf(res: JsVal): (c: JsVal)
    ensures Truthy(c)
  {
    Or(Or(Get(res, "reports"), res), Arr([]))
  }

  /** A bare array is kept as it is, in server order. */
  lemma ReportsOrSelfBareArray(xs: seq<Report>)
    ensures ReportsOrSelf(Arr(xs)) == Arr(xs)
  {
  }

  /** A truthy `reports` field wins whatever else the object carries, `status` included. */
  lemma ReportsOrSelfField(m: map<string, JsVal>)
    requires "reports" in m && Truthy(m["reports"])
    ensures ReportsOrSelf(Obj(m)) == m["reports"]
  {
  }

  /** An object without a truthy `reports` field (a failure object, a `data` envelope) is itself the result. */
  lemma ReportsOrSelfObject(m: map<string, JsVal>)
    requires "reports" !in m || !Truthy(m["reports"])
    ensures ReportsOrSelf(Obj(m)) == Obj(m)
  {
  }

  /** The account status card of both dashboards: "Active" once there is a report, "New" before. */
  function AccountStatus(rs: seq<Report>): (s: string)
    ensures s == "Active" || s == "New"
    ensures s == "Active" <==> |rs| > 0
  {
    if |rs| > 0 then "Active" else "New"
  }

  /** How the status-gated screens (Dashboard.js, Profile.js) read a list response. */
  datatype LoadOutcome = Loaded(reports: seq<Report>) | NotLoaded

  /** `result && result.status`. */
  predicate StatusOk(result: JsVal)
  {
    Truthy(result) && Truthy(Get(result, "status"))
  }

  /**
   * The status-gated normalisation: with a truthy status, the first truthy of
   * `reports` and `data`, coerced to an array; a bare array as it is;
   * anything else is not loaded.
   */
  function StatusGated(result: JsVal): (o: LoadOutcome)
  {
    if StatusOk(result) then
      var data := Or(Or(Get(result, "reports"), Get(result, "data")), if result.Arr? then result else Arr([]));
      Loaded(if data.Arr? then data.items else [])
    else if Truthy(result) && result.Arr? then
      Loaded(result.items)
    else
      NotLoaded
  }

  /** A response is loaded exactly when it carries a truthy status or is a bare array. */
  lemma StatusGatedLoadedIff(result: JsVal)
    ensures StatusGated(result).Loaded? <==> (Truthy(Get(result, "status")) || result.Arr?)
    ensures result.Arr? ==> StatusGated(result) == Loaded(result.items)
  {
  }

  /** With a truthy status, an array in `reports` is used even when it is empty and `data` holds reports. */
  lemma StatusGatedReportsFirst(m: map<string, JsVal>, xs: seq<Report>)
    requires "status" in m && Truthy(m["status"])
    requires "reports" in m && m["reports"].Arr?
    ensures StatusGated(Obj(m)) == Loaded(m["reports"].items)
  {
  }

  /** With a truthy status and no truthy `reports`, an array in `data` is used. */
  lemma StatusGatedData(m: map<string, JsVal>)
    requires "status" in m && Truthy(m["status"])
    requires "reports" !in m || !Truthy(m["reports"])
    requires "data" in m && m["data"].Arr?
    ensures StatusGated(Obj(m)) == Loaded(m["data"].items)
  {
  }

  /** An envelope without a truthy status is not loaded, even when it carries `reports`. */
  lemma StatusGatedNeedsStatus(m: map<string, JsVal>)
    requires "status" !in m || !Truthy(m["status"])
    ensures StatusGated(Obj(m)) == NotLoaded
  {
  }
}
