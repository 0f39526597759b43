/**
 * The JavaScript values the screens receive from the HTTP gateway and keep in
 * component state, with the two JavaScript operators the screens use to probe
 * them: truthiness (`if (x)`, `!x`) and the short-circuit `||`.
 *
 * Responses are JSON, so functions never occur as values. Numbers are modelled
 * as integers (NaN and fractions are not distinguished).
 */
module JsValues {

  datatype Option<+T> = None | Some(value: T)

  /** A report id: the server sends either a number or a string. */
  datatype ReportId = NumId(n: int) | StrId(s: string)

  /**
   * A report as the screens read it. Only the fields whose value decides
   * something are kept; the remaining display-only fields (scores, strengths,
   * improvements, recommendations) are passed through unread.
   */
  datatype Report = Report(
    id: ReportId,
    description: Option<string>,
    summary: Option<string>,
    generatedText: Option<string>,
    missingKeywords: Option<seq<string>>)

  /** An untyped JSON value; arrays in responses are arrays of reports. */
  datatype JsVal =
    | Undef
    | Null
    | Bool(b: bool)
    | Num(n: int)
    | Str(s: string)
    | Arr(items: seq<Report>)
    | Obj(fields: map<string, JsVal>)

  /** JavaScript truthiness: `undefined`, `null`, `false`, `0` and `""` are falsy. */
  predicate Truthy(v: JsVal)
  {
    match v
    case Undef => false
    case Null => false
    case Bool(b) => b
    case Num(n) => n != 0
    case Str(s) => s != ""
    case Arr(_) => true
    case Obj(_) => true
  }

  predicate Nullish(v: JsVal)
  {
    v.Undef? || v.Null?
  }

  /** `a || b`: the first operand when it is truthy, otherwise the second. */
  function Or(a: JsVal, b: JsVal): (r: JsVal)
    ensures Truthy(r) <==> Truthy(a) || Truthy(b)
    ensures Truthy(a) ==> r == a
    ensures !Truthy(a) ==> r == b
  {
    if Truthy(a) then a else b
  }

  /**
   * `v?.key`: the property of an object, and `undefined` for every other value
   * (a JSON array or primitive carries none of the keys the screens ask for).
   */
  function Get(v: JsVal, key: string): (r: JsVal)
    ensures !v.Obj? ==> r == Undef
    ensures v.Obj? && key in v.fields ==> r == v.fields[key]
  {
    match v
    case Obj(m) => if key in m then m[key] else Undef
    case _ => Undef
  }

  /** `v.key` without optional chaining: reading a property of `null` or `undefined` throws. */
  function Member(v: JsVal, key: string): (r: Option<JsVal>)
    ensures r.None? <==> Nullish(v)
    ensures r.Some? ==> r.value == Get(v, key)
  {
    if Nullish(v) then None else Some(Get(v, key))
  }

  /** What a call into the HTTP gateway settles to: a rejected promise or a resolved JSON value. */
  datatype ApiOutcome = Rejected | Resolved(value: JsVal)

  /** A value read from browser storage, as the JavaScript value `getItem` returns. */
  function StoredValue(item: Option<string>): (r: JsVal)
    ensures Truthy(r) <==> item.Some? && item.value != ""
  {
    match item
    case None => Null
    case Some(s) => Str(s)
  }

  /** The decimal digit for `d`. */
  function DigitChar(d: int): (c: char)
    requires 0 <= d < 10
    ensures '0' <= c <= '9'
    ensures c as int - '0' as int == d
  {
    ('0' as int + d) as char
  }

  /** The decimal numeral JavaScript prints for a non-negative integer. */
  function NatToString(n: nat): (s: string)
    ensures |s| >= 1
    ensures forall i :: 0 <= i < |s| ==> '0' <= s[i] <= '9'
    ensures s[0] == '0' ==> n == 0
  {
    if n < 10 then [DigitChar(n)] else NatToString(n / 10) + [DigitChar(n % 10)]
  }

  /** Different numbers print differently: the decimal numeral determines the number. */
  lemma {:induction false} NatToStringInjective(a: nat, b: nat)
    requires NatToString(a) == NatToString(b)
    ensures a == b
  {
    var sa, sb := NatToString(a), NatToString(b);
    if a >= 10 && b >= 10 {
      assert sa[..|sa| - 1] == NatToString(a / 10);
      assert sb[..|sb| - 1] == NatToString(b / 10);
      NatToStringInjective(a / 10, b / 10);
    }
  }

  /** `String(n)` for an integer. */
  function IntToString(n: int): (s: string)
    ensures |s| >= 1
    ensures (s[0] == '-') <==> n < 0
  {
    if n < 0 then "-" + NatToString(-n) else NatToString(n)
  }

  /** `String(r.id)`: a string id as it is, a numeric id as its decimal numeral. */
  function IdText(id: ReportId): (s: string)
    ensures id.StrId? ==> s == id.s
    ensures id.NumId? ==> s == IntToString(id.n)
  {
    match id
    case StrId(s) => s
    case NumId(n) => IntToString(n)
  }
}
