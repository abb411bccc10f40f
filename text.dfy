/** The handful of Python string operations the generator relies on, written
    out over `string` (= `seq<char>`): `startswith`, `in`, `find`,
    `split('\n')`, `'\n'.join`, `''.join`, `split()`, `strip()` and `int()`. */
module Text {
  import opened Wrappers

  predicate StartsWith(s: string, prefix: string) {
    |prefix| <= |s| && s[..|prefix|] == prefix
  }

  predicate EndsWith(s: string, suffix: string) {
    |suffix| <= |s| && s[|s| - |suffix|..] == suffix
  }

  /** `pat in s` */
  predicate Contains(s: string, pat: string)
    decreases |s|
  {
    StartsWith(s, pat) || (|s| > 0 && Contains(s[1..], pat))
  }

  /** What a suffix contains, the whole contains. */
  lemma {:induction false} ContainsLater(s: string, k: nat, pat: string)
    requires k <= |s| && Contains(s[k..], pat)
    ensures Contains(s, pat)
    decreases k
  {
    if k > 0 {
      assert s[1..][k - 1..] == s[k..];
      ContainsLater(s[1..], k - 1, pat);
    }
  }

  /** `s.find(pat)`, with `None` for Python's -1. */
  function Find(s: string, pat: string): (r: Option<nat>)
    ensures r.Some? ==> r.value + |pat| <= |s| && s[r.value..r.value + |pat|] == pat
    ensures r.None? <==> !Contains(s, pat)
    decreases |s|
  {
    if StartsWith(s, pat) then Some(0)
    else if |s| == 0 then None
    else
      match Find(s[1..], pat)
      case Some(i) => Some(i + 1)
      case None => None
  }

  /** The occurrence found is the first one. */
  lemma {:induction false} FindIsFirst(s: string, pat: string)
    ensures Find(s, pat).Some? ==> forall i :: 0 <= i < Find(s, pat).value ==> !StartsWith(s[i..], pat)
    decreases |s|
  {
    if !StartsWith(s, pat) && |s| > 0 && Find(s[1..], pat).Some? {
      FindIsFirst(s[1..], pat);
      assert forall j :: 1 <= j <= Find(s[1..], pat).value ==> s[j..] == s[1..][j - 1..];
    }
  }

  /** `s.split(pat)[0]`: the text before the first occurrence of `pat`, or all of `s`. */
  function BeforeFirst(s: string, pat: string): (r: string)
    ensures StartsWith(s, r)
    ensures Contains(s, pat) ==> StartsWith(s[|r|..], pat)
    ensures !Contains(s, pat) ==> r == s
  {
    match Find(s, pat)
    case Some(i) => s[..i]
    case None => s
  }

  /** No occurrence of `pat` starts inside `s.split(pat)[0]`. */
  lemma BeforeFirstIsFirst(s: string, pat: string)
    ensures forall i :: 0 <= i < |BeforeFirst(s, pat)| ==> !StartsWith(s[i..], pat)
  {
    FindIsFirst(s, pat);
    if Find(s, pat).None? {
      AbsentNowhere(s, pat);
    }
  }

  /** A pattern that `s` does not contain starts at no position of `s`. */
  lemma {:induction false} AbsentNowhere(s: string, pat: string)
    requires !Contains(s, pat)
    ensures forall i :: 0 <= i <= |s| ==> !StartsWith(s[i..], pat)
    decreases |s|
  {
    if |s| > 0 {
      AbsentNowhere(s[1..], pat);
      assert forall j :: 1 <= j <= |s| ==> s[j..] == s[1..][j - 1..];
    }
  }

  /** `s.split('\n')`: always at least one piece, none holding a newline. */
  function Lines(s: string): (r: seq<string>)
    ensures |r| >= 1
    ensures forall i :: 0 <= i < |r| ==> '\n' !in r[i]
    decreases |s|
  {
    if s == [] then [""]
    else
      var rest := Lines(s[1..]);
      if s[0] == '\n' then [""] + rest
      else [[s[0]] + rest[0]] + rest[1..]
  }

  /** `'\n'.join(ls)` */
  function JoinLines(ls: seq<string>): string
  {
    if |ls| == 0 then ""
    else if |ls| == 1 then ls[0]
    else ls[0] + "\n" + JoinLines(ls[1..])
  }

  /** `''.join(ls)` */
  function Concat(ls: seq<string>): string
  {
    if ls == [] then "" else ls[0] + Concat(ls[1..])
  }

  lemma {:induction false} ConcatAppend(a: seq<string>, b: seq<string>)
    ensures Concat(a + b) == Concat(a) + Concat(b)
  {
    if a != [] {
      assert (a + b)[0] == a[0];
      assert (a + b)[1..] == a[1..] + b;
      ConcatAppend(a[1..], b);
    } else {
      assert a + b == b;
    }
  }

  /** Joining the pieces of a split gives the text back. */
  lemma {:induction false} JoinLinesOfLines(s: string)
    ensures JoinLines(Lines(s)) == s
    decreases |s|
  {
    if s != [] {
      var rest := Lines(s[1..]);
      JoinLinesOfLines(s[1..]);
      if s[0] != '\n' && |rest| > 1 {
        assert Lines(s)[1..] == rest[1..];
      }
    }
  }

  lemma {:induction false} LinesOfPrefix(x: string, t: string)
    requires '\n' !in x
    ensures Lines(x + t) == [x + Lines(t)[0]] + Lines(t)[1..]
    decreases |x|
  {
    if x != [] {
      assert (x + t)[1..] == x[1..] + t;
      LinesOfPrefix(x[1..], t);
      assert [x[0]] + (x[1..] + Lines(t)[0]) == x + Lines(t)[0];
    } else {
      assert x + t == t;
      assert x + Lines(t)[0] == Lines(t)[0];
      assert Lines(t) == [Lines(t)[0]] + Lines(t)[1..];
    }
  }

  /** Splitting newline-free pieces joined by newlines gives the pieces back. */
  lemma {:induction false} LinesOfJoinLines(ls: seq<string>)
    requires |ls| >= 1
    requires forall i :: 0 <= i < |ls| ==> '\n' !in ls[i]
    ensures Lines(JoinLines(ls)) == ls
  {
    if |ls| == 1 {
      LinesOfPrefix(ls[0], "");
      assert ls[0] + "" == ls[0];
    } else {
      var u := JoinLines(ls[1..]);
      LinesOfJoinLines(ls[1..]);
      LinesOfPrefix(ls[0], "\n" + u);
      assert ("\n" + u)[1..] == u;
      assert Lines("\n" + u) == [""] + Lines(u);
      assert ls[0] + "\n" + u == ls[0] + ("\n" + u);
      assert ls[0] + "" == ls[0];
      assert ls == [ls[0]] + ls[1..];
    }
  }

  /** Python's `str.isspace` for a single character. */
  predicate IsSpace(c: char) {
    || ('\t' <= c <= '\r') || ('\U{1c}' <= c <= '\U{1f}') || c == ' ' || c == '\U{85}'
    || c == '\U{a0}' || c == '\U{1680}' || ('\U{2000}' <= c <= '\U{200a}') || c == '\U{2028}'
    || c == '\U{2029}' || c == '\U{202f}' || c == '\U{205f}' || c == '\U{3000}'
  }

  /** Length of the longest prefix of `s` free of whitespace. */
  function WordLen(s: string): (n: nat)
    ensures n <= |s|
    ensures forall i :: 0 <= i < n ==> !IsSpace(s[i])
    ensures n < |s| ==> IsSpace(s[n])
  {
    if s == [] || IsSpace(s[0]) then 0 else 1 + WordLen(s[1..])
  }

  /** `s.split()`: the maximal whitespace-free runs, none empty. */
  function Words(s: string): (r: seq<string>)
    ensures forall i :: 0 <= i < |r| ==> |r[i]| > 0
    decreases |s|
  {
    if s == [] then []
    else if IsSpace(s[0]) then Words(s[1..])
    else
      var n := WordLen(s);
      [s[..n]] + Words(s[n..])
  }

  /** The first word of a line that starts with a `V:` tag is itself `V:`-tagged. */
  lemma FirstWordOfTagged(s: string)
    requires StartsWith(s, "V:")
    ensures |Words(s)| > 0 && StartsWith(Words(s)[0], "V:")
  {
    assert s[0] == 'V' && s[1] == ':';
    assert WordLen(s) == 1 + WordLen(s[1..]);
    assert s[1..][0] == ':';
  }

  function StripLeft(s: string): (r: string)
    ensures EndsWith(s, r)
    ensures r != [] ==> !IsSpace(r[0])
  {
    if s != [] && IsSpace(s[0]) then
      var r := StripLeft(s[1..]);
      assert s[1..][|s[1..]| - |r|..] == s[|s| - |r|..];
      r
    else s
  }

  function StripRight(s: string): (r: string)
    ensures StartsWith(s, r)
    ensures r != [] ==> !IsSpace(r[|r| - 1])
  {
    if s != [] && IsSpace(s[|s| - 1]) then StripRight(s[..|s| - 1]) else s
  }

  /** `s.strip()` */
  function Strip(s: string): string
  {
    StripRight(StripLeft(s))
  }

  predicate IsDigit(c: char) {
    '0' <= c <= '9'
  }

  /** The digit strings Python's `int()` accepts: digits, single underscores between them. */
  predicate DigitGroups(s: string) {
    && |s| > 0 && IsDigit(s[0]) && IsDigit(s[|s| - 1])
    && (forall i :: 0 <= i < |s| ==> IsDigit(s[i]) || s[i] == '_')
    && (forall i :: 0 <= i < |s| - 1 ==> !(s[i] == '_' && s[i + 1] == '_'))
  }

  /** The number the digits of `s` spell, underscores ignored. */
  function DigitsValue(s: string): nat
  {
    if s == [] then 0
    else if IsDigit(s[|s| - 1]) then DigitsValue(s[..|s| - 1]) * 10 + (s[|s| - 1] as int - '0' as int)
    else DigitsValue(s[..|s| - 1])
  }

  /** `int(s)` for a `str`: `None` where Python raises ValueError. */
  function ParseInt(s: string): Option<int>
  {
    var t := Strip(s);
    if |t| > 0 && (t[0] == '+' || t[0] == '-') then
      if DigitGroups(t[1..]) then
        var v: int := DigitsValue(t[1..]);
        Some(if t[0] == '-' then -v else v)
      else None
    else if DigitGroups(t) then Some(DigitsValue(t))
    else None
  }

  /** `str(n)` for a natural number. */
  function Decimal(n: nat): (r: string)
    ensures |r| > 0 && forall i :: 0 <= i < |r| ==> IsDigit(r[i])
  {
    if n < 10 then [('0' as int + n) as char]
    else Decimal(n / 10) + [('0' as int + n % 10) as char]
  }

  lemma {:induction false} DecimalValue(n: nat)
    ensures DigitsValue(Decimal(n)) == n
  {
    if n >= 10 {
      var d := Decimal(n);
      assert d[..|d| - 1] == Decimal(n / 10);
      DecimalValue(n / 10);
    }
  }

  lemma StripDigits(s: string)
    requires |s| > 0 && forall i :: 0 <= i < |s| ==> IsDigit(s[i])
    ensures Strip(s) == s
  {
    assert StripLeft(s) == s;
    assert StripRight(s) == s;
  }

  /** `int(str(n)) == n`: the parser reads back every rendered number. */
  lemma ParseDecimal(n: nat)
    ensures ParseInt(Decimal(n)) == Some(n)
  {
    var d := Decimal(n);
    StripDigits(d);
    DecimalValue(n);
  }

  /** Index of the first element satisfying `p` (a `for ... break` search). */
  function FirstWhere(ls: seq<string>, p: string -> bool): (r: Option<nat>)
    ensures r.Some? ==> r.value < |ls| && p(ls[r.value])
    ensures r.Some? ==> forall j :: 0 <= j < r.value ==> !p(ls[j])
    ensures r.None? ==> forall j :: 0 <= j < |ls| ==> !p(ls[j])
  {
    if ls == [] then None
    else if p(ls[0]) then Some(0)
    else
      match FirstWhere(ls[1..], p)
      case Some(i) => Some(i + 1)
      case None => None
  }

  method FindFirst(ls: seq<string>, p: string -> bool) returns (r: Option<nat>)
    ensures r == FirstWhere(ls, p)
  {
    r := None;
    var i := 0;
    while i < |ls|
      invariant 0 <= i <= |ls|
      invariant forall j :: 0 <= j < i ==> !p(ls[j])
    {
      if p(ls[i]) {
        r := Some(i);
        break;
      }
      i := i + 1;
    }
    FirstWhereUnique(ls, p, r);
  }

  /** The two ensures of `FirstWhere` pin its result down. */
  lemma FirstWhereUnique(ls: seq<string>, p: string -> bool, r: Option<nat>)
    requires r.Some? ==> r.value < |ls| && p(ls[r.value]) && forall j :: 0 <= j < r.value ==> !p(ls[j])
    requires r.None? ==> forall j :: 0 <= j < |ls| ==> !p(ls[j])
    ensures r == FirstWhere(ls, p)
  {
  }
}
