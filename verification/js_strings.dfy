/**
 * The JavaScript string operations the screens apply to user input: `trim`,
 * `split(sep)[0]`, `split(sep).pop()`, `substring(0, n)`, `charAt(0)` and the
 * case mappings. Case mapping is modelled on ASCII letters only.
 */
module JsStrings {

  /** White space for `trim` and for `\s`: ECMAScript's WhiteSpace and LineTerminator characters. */
  const JsSpaces: set<char> := {
    '\t', '\n', '\U{000B}', '\U{000C}', '\r', ' ', '\U{00A0}', '\U{1680}',
    '\U{2000}', '\U{2001}', '\U{2002}', '\U{2003}', '\U{2004}', '\U{2005}',
    '\U{2006}', '\U{2007}', '\U{2008}', '\U{2009}', '\U{200A}',
    '\U{2028}', '\U{2029}', '\U{202F}', '\U{205F}', '\U{3000}', '\U{FEFF}'
  }

  predicate IsJsSpace(c: char)
  {
    c in JsSpaces
  }

  predicate AllSpace(s: string)
  {
    forall i :: 0 <= i < |s| ==> IsJsSpace(s[i])
  }

  /** `s.trimStart()`: the suffix of `s` left after dropping leading white space. */
  function TrimStart(s: string): (r: string)
  {
    if s != "" && IsJsSpace(s[0]) then TrimStart(s[1..]) else s
  }

  /** `trimStart` drops a prefix of white space and stops at the first other character. */
  lemma {:induction false} TrimStartShape(s: string)
    ensures |TrimStart(s)| <= |s| && TrimStart(s) == s[|s| - |TrimStart(s)|..]
    ensures TrimStart(s) == "" || !IsJsSpace(TrimStart(s)[0])
    ensures AllSpace(s[..|s| - |TrimStart(s)|])
  {
    if s != "" && IsJsSpace(s[0]) {
      TrimStartShape(s[1..]);
      assert s[1..][..|s| - 1 - |TrimStart(s)|] == s[1..|s| - |TrimStart(s)|];
    }
  }

  /** `s.trimEnd()`: the prefix of `s` left after dropping trailing white space. */
  function TrimEnd(s: string): (r: string)
  {
    if s != "" && IsJsSpace(s[|s| - 1]) then TrimEnd(s[..|s| - 1]) else s
  }

  /** `trimEnd` drops a suffix of white space and stops at the last other character. */
  lemma {:induction false} TrimEndShape(s: string)
    ensures |TrimEnd(s)| <= |s| && TrimEnd(s) == s[..|TrimEnd(s)|]
    ensures TrimEnd(s) == "" || !IsJsSpace(TrimEnd(s)[|TrimEnd(s)| - 1])
    ensures AllSpace(s[|TrimEnd(s)|..])
  {
    if s != "" && IsJsSpace(s[|s| - 1]) {
      var init := s[..|s| - 1];
      TrimEndShape(init);
      var t := TrimEnd(init);
      assert TrimEnd(s) == t;
      assert t == s[..|t|] by {
        assert init[..|t|] == s[..|t|];
      }
      forall i | 0 <= i < |s| - |t|
        ensures IsJsSpace(s[|t|..][i])
      {
        if i < |init| - |t| {
          assert s[|t|..][i] == init[|t|..][i];
        }
      }
    }
  }

  /** `s.trim()`. */
  function Trim(s: string): (r: string)
  {
    TrimEnd(TrimStart(s))
  }

  /** Trimming the start never drops a non-space character. */
  lemma {:induction false} TrimStartKeeps(s: string, i: int)
    requires 0 <= i < |s| && !IsJsSpace(s[i])
    ensures |s| - |TrimStart(s)| <= i
  {
    if IsJsSpace(s[0]) {
      TrimStartKeeps(s[1..], i - 1);
    }
  }

  /** Trimming the end never drops a non-space character. */
  lemma {:induction false} TrimEndKeeps(s: string, i: int)
    requires 0 <= i < |s| && !IsJsSpace(s[i])
    ensures i < |TrimEnd(s)|
  {
    if IsJsSpace(s[|s| - 1]) {
      TrimEndKeeps(s[..|s| - 1], i);
    }
  }

  /** `s.trim()` is the empty string exactly when `s` is all white space. */
  lemma TrimEmptyIff(s: string)
    ensures Trim(s) == "" <==> AllSpace(s)
  {
    var t := TrimStart(s);
    if !AllSpace(s) {
      var i :| 0 <= i < |s| && !IsJsSpace(s[i]);
      TrimStartShape(s);
      TrimStartKeeps(s, i);
      var j := i - (|s| - |t|);
      assert t[j] == s[i];
      TrimEndKeeps(t, j);
    } else {
      TrimStartOfSpace(s);
    }
  }

  /** White space alone trims to nothing from the start. */
  lemma {:induction false} TrimStartOfSpace(s: string)
    requires AllSpace(s)
    ensures TrimStart(s) == ""
  {
    if s != "" {
      TrimStartOfSpace(s[1..]);
    }
  }

  /** ASCII upper case of one character. */
  function UpperChar(c: char): (u: char)
    ensures 'a' <= c <= 'z' ==> u as int == c as int - 32
    ensures !('a' <= c <= 'z') ==> u == c
  {
    if 'a' <= c <= 'z' then (c as int - 32) as char else c
  }

  /** ASCII lower case of one character. */
  function LowerChar(c: char): (l: char)
    ensures 'A' <= c <= 'Z' ==> l as int == c as int + 32
    ensures !('A' <= c <= 'Z') ==> l == c
  {
    if 'A' <= c <= 'Z' then (c as int + 32) as char else c
  }

  /** `s.toUpperCase()` on ASCII letters. */
  function ToUpper(s: string): (r: string)
    ensures |r| == |s|
    ensures forall i :: 0 <= i < |s| ==> r[i] == UpperChar(s[i])
  {
    if s == "" then "" else [UpperChar(s[0])] + ToUpper(s[1..])
  }

  /** Upper-casing works character by character, so it distributes over concatenation. */
  lemma ToUpperAppend(a: string, b: string)
    ensures ToUpper(a + b) == ToUpper(a) + ToUpper(b)
  {
    var l, r := ToUpper(a + b), ToUpper(a) + ToUpper(b);
    assert |l| == |r|;
    forall i | 0 <= i < |l|
      ensures l[i] == r[i]
    {
      if i < |a| {
        assert (a + b)[i] == a[i];
      } else {
        assert (a + b)[i] == b[i - |a|];
      }
    }
  }

  /** `s.toLowerCase()` on ASCII letters. */
  function ToLower(s: string): (r: string)
    ensures |r| == |s|
    ensures forall i :: 0 <= i < |s| ==> r[i] == LowerChar(s[i])
  {
    if s == "" then "" else [LowerChar(s[0])] + ToLower(s[1..])
  }

  /** `s.split(c)[0]`: the text before the first `c`, or all of `s` when there is none. */
  function BeforeFirst(s: string, c: char): (r: string)
    ensures |r| <= |s| && r == s[..|r|]
    ensures c !in r
    ensures |r| < |s| ==> s[|r|] == c
  {
    if s == "" || s[0] == c then "" else [s[0]] + BeforeFirst(s[1..], c)
  }

  /** `s.split(c).pop()`: the text after the last `c`, or all of `s` when there is none. */
  function AfterLast(s: string, c: char): (r: string)
  {
    if s == "" || s[|s| - 1] == c then "" else AfterLast(s[..|s| - 1], c) + [s[|s| - 1]]
  }

  /** The text after the last `c` is a suffix of `s` free of `c`, and `c` stands right before it unless it is all of `s`. */
  lemma AfterLastShape(s: string, c: char)
    ensures |AfterLast(s, c)| <= |s| && AfterLast(s, c) == s[|s| - |AfterLast(s, c)|..]
    ensures c !in AfterLast(s, c)
    ensures |AfterLast(s, c)| < |s| ==> s[|s| - |AfterLast(s, c)| - 1] == c
  {
    AfterLastSuffix(s, c);
    AfterLastFree(s, c);
    AfterLastAfterSeparator(s, c);
  }

  /** The text after the last `c` is the tail of `s`. */
  lemma {:induction false} AfterLastSuffix(s: string, c: char)
    ensures |AfterLast(s, c)| <= |s| && AfterLast(s, c) == s[|s| - |AfterLast(s, c)|..]
  {
    if s != "" && s[|s| - 1] != c {
      var init := s[..|s| - 1];
      AfterLastSuffix(init, c);
      var r := AfterLast(init, c);
      assert s == init + [s[|s| - 1]];
      assert s[|init| - |r|..] == init[|init| - |r|..] + [s[|s| - 1]];
    }
  }

  /** The text after the last `c` holds no `c`. */
  lemma {:induction false} AfterLastFree(s: string, c: char)
    ensures c !in AfterLast(s, c)
  {
    if s != "" && s[|s| - 1] != c {
      var init := s[..|s| - 1];
      AfterLastFree(init, c);
      var r := AfterLast(init, c);
      var t := r + [s[|s| - 1]];
      forall i | 0 <= i < |t|
        ensures t[i] != c
      {
        if i < |r| {
          assert t[i] == r[i];
        }
      }
    }
  }

  /** A `c` stands right before the text after the last `c`, unless that text is all of `s`. */
  lemma {:induction false} AfterLastAfterSeparator(s: string, c: char)
    ensures |AfterLast(s, c)| < |s| ==> s[|s| - |AfterLast(s, c)| - 1] == c
  {
    AfterLastSuffix(s, c);
    if s != "" && s[|s| - 1] != c {
      var init := s[..|s| - 1];
      AfterLastAfterSeparator(init, c);
      AfterLastSuffix(init, c);
      var k := |init| - |AfterLast(init, c)|;
      if k > 0 {
        assert s[k - 1] == init[k - 1];
      }
    }
  }

  /** `s.substring(0, n)` for `n >= 0`. */
  function Prefix(s: string, n: nat): (r: string)
    ensures |r| == if n < |s| then n else |s|
    ensures r == s[..|r|]
  {
    if n < |s| then s[..n] else s
  }

  /** `s.charAt(0)`: the first character, or `""` for the empty string. */
  function CharAt0(s: string): (r: string)
    ensures |r| == if s == "" then 0 else 1
    ensures s != "" ==> r[0] == s[0]
  {
    if s == "" then "" else [s[0]]
  }

  /** `s.charAt(0).toUpperCase() + s.slice(1)`: only the first character upper-cased. */
  function Capitalise(s: string): (r: string)
    ensures |r| == |s|
    ensures s != "" ==> r[0] == UpperChar(s[0]) && r[1..] == s[1..]
  {
    ToUpper(CharAt0(s)) + (if s == "" then "" else s[1..])
  }
}
