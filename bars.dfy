/** One tune-body line of `rest_unreduce` (gradio/inference.py:78-110): the
    `[r:...]` tag is stripped, the `[V:n]bar` segments are collected into an
    insertion-ordered dictionary, and the bars whose duration parses vote
    for the line's reference duration. */
module Bars {
  import opened Wrappers
  import opened Text

  /** The bar-level primitives of the ABC toolkit, which is not part of this
      model: the right barline `re.split` finds at the end of a bar, the
      bar's duration (`None` where it is `None` or raises), and `str` of a
      duration. */
  datatype Toolkit = Toolkit(rightBarline: string -> string, duration: string -> Option<real>, show: real -> string)

  /** Index of the first `c` at or after `i`. */
  function IndexFrom(s: string, i: nat, c: char): (r: Option<nat>)
    requires i <= |s|
    ensures r.Some? ==> i <= r.value < |s| && s[r.value] == c
    ensures r.Some? ==> forall j :: i <= j < r.value ==> s[j] != c
    ensures r.None? ==> forall j :: i <= j < |s| ==> s[j] != c
    decreases |s| - i
  {
    if i == |s| then None
    else if s[i] == c then Some(i)
    else IndexFrom(s, i + 1, c)
  }

  /** `re.sub(r'^\[r:[^\]]*\]', '', line)`: a leading `[r:...]` tag is
      removed up to its first `]`; without a closing `]` nothing is. */
  function StripRefTag(line: string): string
  {
    if StartsWith(line, "[r:") then
      match IndexFrom(line, 3, ']')
      case Some(j) => line[j + 1..]
      case None => line
    else line
  }

  /** What is removed is a prefix of the line: nothing unless the line
      starts with `[r:` and has a `]` after it, and then everything up to
      and including the first such `]`. */
  lemma StripRefTagShape(line: string)
    ensures EndsWith(line, StripRefTag(line))
    ensures !StartsWith(line, "[r:") ==> StripRefTag(line) == line
    ensures StartsWith(line, "[r:") ==>
              (StripRefTag(line) == line <==> forall j :: 3 <= j < |line| ==> line[j] != ']')
    ensures StripRefTag(line) != line ==>
              var k := |line| - |StripRefTag(line)|;
              && 4 <= k && line[k - 1] == ']'
              && forall j :: 3 <= j < k - 1 ==> line[j] != ']'
  {
  }

  /** The tag is recognised exactly: a line built as a tag free of `]`
      followed by a body loses the tag and keeps the body. */
  lemma StripRefTagOf(tag: string, body: string)
    requires forall j :: 0 <= j < |tag| ==> tag[j] != ']'
    ensures StripRefTag("[r:" + tag + "]" + body) == body
  {
    var line := "[r:" + tag + "]" + body;
    assert StartsWith(line, "[r:");
    assert line[3 + |tag|] == ']';
    assert forall j :: 3 <= j < 3 + |tag| ==> line[j] == tag[j - 3];
    assert line[3 + |tag| + 1..] == body;
  }

  /** Length of the longest prefix of `s` made of ASCII digits. */
  function DigitRun(s: string): (n: nat)
    ensures n <= |s|
    ensures forall i :: 0 <= i < n ==> IsDigit(s[i])
    ensures n < |s| ==> !IsDigit(s[n])
  {
    if s == [] || !IsDigit(s[0]) then 0 else 1 + DigitRun(s[1..])
  }

  /** `\[V:(\d+)\]` anchored at the start of `s`: the digits and the index
      just after the closing bracket. */
  function TagAt(s: string): (r: Option<(string, nat)>)
    ensures r.Some? ==> 5 <= r.value.1 <= |s|
  {
    if StartsWith(s, "[V:") then
      var n := DigitRun(s[3..]);
      if n > 0 && 3 + n < |s| && s[3 + n] == ']' then Some((s[3..3 + n], 4 + n))
      else None
    else None
  }

  /** A recognised tag is `[V:`, a non-empty run of digits, `]`. */
  lemma TagAtSpec(s: string)
    requires TagAt(s).Some?
    ensures s[..TagAt(s).value.1] == "[V:" + TagAt(s).value.0 + "]"
    ensures AllDigits(TagAt(s).value.0)
  {
    var n := DigitRun(s[3..]);
    assert s[..4 + n] == s[..3] + s[3..3 + n] + [s[3 + n]];
  }

  /** Where the lazy `(.*?)` stops: the first position at or after `k` that
      is followed by `[V:`, is the end of the text, or is the final newline
      (`$` without MULTILINE); `None` when a newline comes first, since `.`
      does not match it. */
  function SegmentEnd(s: string, k: nat): (r: Option<nat>)
    requires k <= |s|
    ensures r.Some? ==> k <= r.value <= |s|
    decreases |s| - k
  {
    if StartsWith(s[k..], "[V:") || k == |s| || (k == |s| - 1 && s[k] == '\n') then Some(k)
    else if s[k] == '\n' then None
    else SegmentEnd(s, k + 1)
  }

  /** The bar text is the shortest newline-free run followed by `[V:`, the
      end, or the final newline. */
  lemma {:induction false} SegmentEndSpec(s: string, k: nat)
    requires k <= |s| && SegmentEnd(s, k).Some?
    ensures var e := SegmentEnd(s, k).value;
            && (forall i :: k <= i < e ==> s[i] != '\n' && !StartsWith(s[i..], "[V:"))
            && (StartsWith(s[e..], "[V:") || e == |s| || (e == |s| - 1 && s[e] == '\n'))
    decreases |s| - k
  {
    if !(StartsWith(s[k..], "[V:") || k == |s| || (k == |s| - 1 && s[k] == '\n')) {
      SegmentEndSpec(s, k + 1);
    }
  }

  /** `re.findall(r'\[V:(\d+)\](.*?)(?=\[V:|$)', s)`: the voice number and
      bar text of every segment, left to right. */
  function VoiceMatches(s: string): seq<(string, string)>
    decreases |s|
  {
    if s == [] then []
    else
      match TagAt(s)
      case None => VoiceMatches(s[1..])
      case Some(t) =>
        match SegmentEnd(s, t.1)
        case None => VoiceMatches(s[1..])
        case Some(e) => [(t.0, s[t.1..e])] + VoiceMatches(s[e..])
  }

  /** Bar text the matcher reads back whole: no newline and no `[V`. */
  predicate PlainBar(t: string) {
    forall i :: 0 <= i < |t| ==> t[i] != '\n' && (t[i] == '[' && i + 1 < |t| ==> t[i + 1] != 'V')
  }

  predicate AllDigits(d: string) {
    |d| > 0 && forall i :: 0 <= i < |d| ==> IsDigit(d[i])
  }

  /** A line written as `[V:n]bar` segments (then an optional final newline). */
  function Segments(segs: seq<(string, string)>): string
  {
    if segs == [] then "" else "[V:" + segs[0].0 + "]" + segs[0].1 + Segments(segs[1..])
  }

  lemma SegmentEndOfPlain(t: string, rest: string)
    requires PlainBar(t)
    requires StartsWith(rest, "[V:") || rest == "" || rest == "\n"
    ensures SegmentEnd(t + rest, 0) == Some(|t|)
  {
    var s := t + rest;
    var k := |t|;
    assert s[k..] == rest;
    forall i | 0 <= i < k
      ensures s[i] != '\n' && !StartsWith(s[i..], "[V:")
    {
      assert s[i] == t[i];
      if i + 1 < k {
        assert s[i + 1] == t[i + 1];
        assert s[i] != '[' || s[i + 1] != 'V';
      } else if rest == "" {
        assert |s[i..]| == 1;
      } else {
        assert s[i + 1] == rest[0];
        assert rest[0] != 'V';
      }
    }
    SegmentEndScan(s, 0, k);
  }

  lemma {:induction false} SegmentEndScan(s: string, k: nat, e: nat)
    requires k <= e <= |s|
    requires forall i :: k <= i < e ==> s[i] != '\n' && !StartsWith(s[i..], "[V:")
    requires StartsWith(s[e..], "[V:") || e == |s| || (e == |s| - 1 && s[e] == '\n')
    ensures SegmentEnd(s, k) == Some(e)
    decreases e - k
  {
    if k < e {
      assert s[k] != '\n' && !StartsWith(s[k..], "[V:");
      SegmentEndScan(s, k + 1, e);
    }
  }

  /** The matcher is the inverse of writing segments out: every segment
      with a numeric voice and a plain bar comes back as it was written. */
  lemma {:induction false} VoiceMatchesOfSegments(segs: seq<(string, string)>, tail: string)
    requires forall i :: 0 <= i < |segs| ==> AllDigits(segs[i].0) && PlainBar(segs[i].1)
    requires tail == "" || tail == "\n"
    ensures VoiceMatches(Segments(segs) + tail) == segs
  {
    if segs == [] {
      assert Segments(segs) + tail == tail;
      NoMatchesInTail(tail);
    } else {
      var d := segs[0].0;
      var b := segs[0].1;
      var rest := Segments(segs[1..]) + tail;
      SegmentsCons(segs, tail);
      SegmentsThen(segs[1..], tail);
      VoiceMatchesStep(d, b, rest);
      VoiceMatchesOfSegments(segs[1..], tail);
      assert segs == [(d, b)] + segs[1..];
    }
  }

  lemma NoMatchesInTail(tail: string)
    requires tail == "" || tail == "\n"
    ensures VoiceMatches(tail) == []
  {
    if tail == "\n" {
      assert TagAt(tail).None?;
      assert tail[1..] == "";
    }
  }

  lemma SegmentsCons(segs: seq<(string, string)>, tail: string)
    requires segs != []
    ensures Segments(segs) + tail == "[V:" + segs[0].0 + "]" + segs[0].1 + (Segments(segs[1..]) + tail)
  {
  }

  lemma SegmentsThen(segs: seq<(string, string)>, tail: string)
    requires tail == "" || tail == "\n"
    ensures var rest := Segments(segs) + tail;
            StartsWith(rest, "[V:") || rest == "" || rest == "\n"
  {
    if segs != [] {
      assert (Segments(segs) + tail)[..3] == "[V:";
    }
  }

  lemma VoiceMatchesStep(d: string, b: string, rest: string)
    requires AllDigits(d) && PlainBar(b)
    requires StartsWith(rest, "[V:") || rest == "" || rest == "\n"
    ensures VoiceMatches("[V:" + d + "]" + b + rest) == [(d, b)] + VoiceMatches(rest)
  {
    var head := "[V:" + d + "]";
    var s := "[V:" + d + "]" + b + rest;
    TagOfSegment(d, b + rest);
    assert s == head + (b + rest) && |head| == 4 + |d|;
    SegmentEndOfPlain(b, rest);
    EndOfSegment(head, b + rest, |b|);
    assert s[4 + |d|..4 + |d| + |b|] == b;
    assert s[4 + |d| + |b|..] == rest;
  }

  lemma TagOfSegment(d: string, tail: string)
    requires AllDigits(d)
    ensures TagAt("[V:" + d + "]" + tail) == Some((d, 4 + |d|))
  {
    var s := "[V:" + d + "]" + tail;
    assert s[3..] == d + ("]" + tail);
    DigitRunOf(d, "]" + tail);
    assert s[3..3 + |d|] == d;
  }

  /** A bar end found in a tail is found at the same place after any head. */
  lemma EndOfSegment(head: string, u: string, e: nat)
    requires SegmentEnd(u, 0) == Some(e)
    ensures SegmentEnd(head + u, |head|) == Some(|head| + e)
  {
    assert (head + u)[|head|..] == u;
    SegmentEndShiftFrom(head + u, |head|, u, 0);
  }

  lemma DigitRunOf(d: string, rest: string)
    requires AllDigits(d) && rest != [] && rest[0] == ']'
    ensures DigitRun(d + rest) == |d|
    decreases |d|
  {
    if |d| > 0 {
      assert (d + rest)[1..] == d[1..] + rest;
      if |d| > 1 {
        DigitRunOf(d[1..], rest);
      } else {
        assert d[1..] + rest == rest;
      }
    }
  }

  /** The scan from `k + j` in `s` is the scan from `j` in the suffix `s[k..]`. */
  lemma {:induction false} SegmentEndShiftFrom(s: string, k: nat, u: string, j: nat)
    requires k <= |s| && s[k..] == u && j <= |u|
    ensures SegmentEnd(s, k + j) == (match SegmentEnd(u, j) case Some(e) => Some(k + e) case None => None)
    decreases |u| - j
  {
    assert s[k + j..] == u[j..];
    if !(StartsWith(u[j..], "[V:") || j == |u| || (j == |u| - 1 && u[j] == '\n')) && u[j] != '\n' {
      SegmentEndShiftFrom(s, k, u, j + 1);
    }
  }

  // ---------------------------------------------------------------------
  // Insertion-ordered dictionaries, as association lists.

  /** Position of key `k`, if present. */
  function KeyIndex<K(==), V>(d: seq<(K, V)>, k: K): (r: Option<nat>)
    ensures r.Some? ==> r.value < |d| && d[r.value].0 == k
  {
    if d == [] then None
    else if d[0].0 == k then Some(0)
    else
      match KeyIndex(d[1..], k)
      case Some(i) => Some(i + 1)
      case None => None
  }

  /** The position found is the first with key `k`; `None` means no entry has it. */
  lemma {:induction false} KeyIndexFirst<K, V>(d: seq<(K, V)>, k: K)
    ensures KeyIndex(d, k).Some? ==> forall j :: 0 <= j < KeyIndex(d, k).value ==> d[j].0 != k
    ensures KeyIndex(d, k).None? ==> forall j :: 0 <= j < |d| ==> d[j].0 != k
  {
    if d != [] && d[0].0 != k {
      KeyIndexFirst(d[1..], k);
      assert forall j :: 1 <= j < |d| ==> d[j] == d[1..][j - 1];
    }
  }

  /** `d.get(k)` */
  function Lookup<K(==), V>(d: seq<(K, V)>, k: K): Option<V>
  {
    match KeyIndex(d, k)
    case Some(i) => Some(d[i].1)
    case None => None
  }

  function Keys<K, V>(d: seq<(K, V)>): (ks: seq<K>)
    ensures |ks| == |d| && forall i :: 0 <= i < |d| ==> ks[i] == d[i].0
  {
    seq(|d|, i requires 0 <= i < |d| => d[i].0)
  }

  predicate Distinct<K(==), V>(d: seq<(K, V)>) {
    forall i, j :: 0 <= i < j < |d| ==> d[i].0 != d[j].0
  }

  /** `d[k] = v`: an existing key keeps its place and takes the new value,
      a new key goes to the end. */
  function Put<K(==), V>(d: seq<(K, V)>, k: K, v: V): seq<(K, V)>
  {
    match KeyIndex(d, k)
    case Some(i) => d[i := (k, v)]
    case None => d + [(k, v)]
  }

  /** After `d[k] = v`, `k` maps to `v`, every other key keeps its value,
      the keys keep their order (a new key last), and they stay distinct. */
  lemma PutSpec<K(!new), V>(d: seq<(K, V)>, k: K, v: V)
    ensures Lookup(Put(d, k, v), k) == Some(v)
    ensures forall k' :: k' != k ==> Lookup(Put(d, k, v), k') == Lookup(d, k')
    ensures Keys(Put(d, k, v)) == if KeyIndex(d, k).Some? then Keys(d) else Keys(d) + [k]
    ensures Distinct(d) ==> Distinct(Put(d, k, v))
  {
    var r := Put(d, k, v);
    KeyIndexFirst(d, k);
    match KeyIndex(d, k)
    case Some(i) =>
      KeyIndexIs(r, k, i);
      forall k' | k' != k ensures Lookup(r, k') == Lookup(d, k') {
        KeyIndexAway(d, r, k', i);
      }
    case None =>
      KeyIndexIs(r, k, |d|);
      forall k' | k' != k ensures Lookup(r, k') == Lookup(d, k') {
        KeyIndexAway(d, r, k', |d|);
      }
  }

  lemma {:induction false} KeyIndexIs<K(!new), V>(d: seq<(K, V)>, k: K, i: nat)
    requires i < |d| && d[i].0 == k && forall j :: 0 <= j < i ==> d[j].0 != k
    ensures KeyIndex(d, k) == Some(i)
  {
    if i > 0 {
      assert d[0].0 != k;
      KeyIndexIs(d[1..], k, i - 1);
    }
  }

  /** Changing or appending the entry at `i` does not move other keys. */
  lemma KeyIndexAway<K(!new), V>(d: seq<(K, V)>, r: seq<(K, V)>, k: K, i: nat)
    requires i <= |d| && |r| == if i < |d| then |d| else |d| + 1
    requires forall j :: 0 <= j < |d| && j != i ==> r[j] == d[j]
    requires i < |d| ==> r[i].0 == d[i].0
    requires r[i].0 != k
    ensures Lookup(r, k) == Lookup(d, k)
  {
    KeyIndexFirst(d, k);
    match KeyIndex(d, k)
    case Some(j) =>
      assert r[j] == d[j];
      KeyIndexIs(r, k, j);
    case None =>
      assert forall j :: 0 <= j < |r| ==> r[j].0 != k by {
        forall j | 0 <= j < |r| ensures r[j].0 != k {
          if j != i {
            assert r[j] == d[j];
          }
        }
      }
  }

  /** In a dictionary with distinct keys, an entry is found where it is. */
  lemma LookupDistinct<K(!new), V>(d: seq<(K, V)>, i: nat)
    requires Distinct(d) && i < |d|
    ensures Lookup(d, d[i].0) == Some(d[i].1)
  {
    KeyIndexIs(d, d[i].0, i);
  }

  // ---------------------------------------------------------------------
  // line_bar_dict

  /** The text of the last match whose key is `key`. */
  function LastBar(ms: seq<(string, string)>, key: string): Option<string>
  {
    if ms == [] then None
    else if "V:" + ms[|ms| - 1].0 == key then Some(ms[|ms| - 1].1)
    else LastBar(ms[..|ms| - 1], key)
  }

  /** `line_bar_dict` after `line_bar_dict[f'V:{m[0]}'] = m[1]` for each match. */
  function BarDict(ms: seq<(string, string)>): seq<(string, string)>
  {
    if ms == [] then []
    else
      var m := ms[|ms| - 1];
      Put(BarDict(ms[..|ms| - 1]), "V:" + m.0, m.1)
  }

  /** A voice's entry is the text of its last segment on the line, each
      voice has one entry, and a voice has an entry only if a segment
      names it. */
  lemma {:induction false} BarDictLookup(ms: seq<(string, string)>)
    ensures Distinct(BarDict(ms))
    ensures forall key :: Lookup(BarDict(ms), key) == LastBar(ms, key)
  {
    if ms != [] {
      var m := ms[|ms| - 1];
      BarDictLookup(ms[..|ms| - 1]);
      PutSpec(BarDict(ms[..|ms| - 1]), "V:" + m.0, m.1);
    }
  }

  lemma LastBarSome(ms: seq<(string, string)>, key: string)
    ensures LastBar(ms, key).Some? <==> exists i :: 0 <= i < |ms| && "V:" + ms[i].0 == key
    ensures LastBar(ms, key).Some? ==>
              exists i :: 0 <= i < |ms| && "V:" + ms[i].0 == key && ms[i].1 == LastBar(ms, key).value
                 && forall j :: i < j < |ms| ==> "V:" + ms[j].0 != key
  {
    LastBarFound(ms, key);
    LastBarAbsent(ms, key);
  }

  /** An entry comes from the last segment that names its voice. */
  lemma {:induction false} LastBarFound(ms: seq<(string, string)>, key: string)
    ensures LastBar(ms, key).Some? ==>
              exists i :: 0 <= i < |ms| && "V:" + ms[i].0 == key && ms[i].1 == LastBar(ms, key).value
                 && forall j :: i < j < |ms| ==> "V:" + ms[j].0 != key
  {
    if ms != [] && "V:" + ms[|ms| - 1].0 != key && LastBar(ms, key).Some? {
      var n := |ms| - 1;
      LastBarFound(ms[..n], key);
      var i :| 0 <= i < n && "V:" + ms[..n][i].0 == key && ms[..n][i].1 == LastBar(ms, key).value
             && forall j :: i < j < n ==> "V:" + ms[..n][j].0 != key;
      assert ms[i] == ms[..n][i];
    }
  }

  /** No entry for a voice that no segment names. */
  lemma {:induction false} LastBarAbsent(ms: seq<(string, string)>, key: string)
    ensures LastBar(ms, key).None? ==> forall i :: 0 <= i < |ms| ==> "V:" + ms[i].0 != key
  {
    if ms != [] && LastBar(ms, key).None? {
      var n := |ms| - 1;
      LastBarAbsent(ms[..n], key);
      forall i | 0 <= i < n ensures "V:" + ms[i].0 != key {
        assert ms[i] == ms[..n][i];
      }
    }
  }

  /** The dictionary-building loop of gradio/inference.py:86-90. */
  method CollectBars(ms: seq<(string, string)>) returns (d: seq<(string, string)>)
    ensures d == BarDict(ms)
  {
    d := [];
    var i := 0;
    while i < |ms|
      invariant 0 <= i <= |ms|
      invariant d == BarDict(ms[..i])
    {
      d := Put(d, "V:" + ms[i].0, ms[i].1);
      i := i + 1;
      assert ms[..i][..i - 1] == ms[..i - 1];
    }
    assert ms[..i] == ms;
  }

  // ---------------------------------------------------------------------
  // dur_dict and ref_dur

  /** `bartext[:-n]`, which is empty for `n == 0` as well as for `n >= len`. */
  function DropLast(s: string, n: nat): (r: string)
    ensures StartsWith(s, r)
    ensures 0 < n < |s| ==> |r| == |s| - n
    ensures n == 0 || n >= |s| ==> r == ""
  {
    if n == 0 || n >= |s| then "" else s[..|s| - n]
  }

  /** The bar with its right barline cut off, as the duration sees it. */
  function BarBody(kit: Toolkit, bartext: string): string
  {
    DropLast(bartext, |kit.rightBarline(bartext)|)
  }

  /** The durations that parse, in dictionary order. */
  function Durations(kit: Toolkit, d: seq<(string, string)>): seq<real>
  {
    if d == [] then []
    else
      Durations(kit, d[..|d| - 1]) +
        match kit.duration(BarBody(kit, d[|d| - 1].1))
        case Some(x) => [x]
        case None => []
  }

  /** The vote of one more bar. */
  function VoteOf(kit: Toolkit, bar: (string, string)): seq<real>
  {
    match kit.duration(BarBody(kit, bar.1))
    case Some(x) => [x]
    case None => []
  }

  lemma DurationsNext(kit: Toolkit, d: seq<(string, string)>, i: nat)
    requires i < |d|
    ensures Durations(kit, d[..i + 1]) == Durations(kit, d[..i]) + VoteOf(kit, d[i])
  {
    assert d[..i + 1][..i] == d[..i];
  }

  /** Only bars whose duration parses vote, each once. */
  lemma {:induction false} DurationsVote(kit: Toolkit, d: seq<(string, string)>)
    ensures |Durations(kit, d)| <= |d|
    ensures forall x :: x in Durations(kit, d) <==> exists i :: 0 <= i < |d| && kit.duration(BarBody(kit, d[i].1)) == Some(x)
  {
    if d != [] {
      var n := |d| - 1;
      DurationsVote(kit, d[..n]);
      DurationsNext(kit, d, n);
      assert d[..n + 1] == d;
      forall x | x in Durations(kit, d) ensures exists i :: 0 <= i < |d| && kit.duration(BarBody(kit, d[i].1)) == Some(x) {
        if x in Durations(kit, d[..n]) {
          var i :| 0 <= i < n && kit.duration(BarBody(kit, d[..n][i].1)) == Some(x);
          assert d[i] == d[..n][i];
        } else {
          assert x in VoteOf(kit, d[n]);
        }
      }
      forall x, i | 0 <= i < |d| && kit.duration(BarBody(kit, d[i].1)) == Some(x) ensures x in Durations(kit, d) {
        if i < n {
          assert d[i] == d[..n][i];
          assert x in Durations(kit, d[..n]);
        } else {
          assert VoteOf(kit, d[n]) == [x];
        }
      }
    }
  }

  /** `dur_dict[x] += 1`, or `dur_dict[x] = 1` for a new duration. */
  function Bump(t: seq<(real, nat)>, x: real): seq<(real, nat)>
  {
    match Lookup(t, x)
    case Some(n) => Put(t, x, n + 1)
    case None => Put(t, x, 1)
  }

  lemma BumpSpec(t: seq<(real, nat)>, x: real)
    ensures Lookup(Bump(t, x), x) == Some(if Lookup(t, x).Some? then Lookup(t, x).value + 1 else 1)
    ensures forall y :: y != x ==> Lookup(Bump(t, x), y) == Lookup(t, y)
    ensures Distinct(t) ==> Distinct(Bump(t, x))
    ensures KeyIndex(t, x).Some? ==> Keys(Bump(t, x)) == Keys(t)
    ensures KeyIndex(t, x).None? ==> Bump(t, x) == t + [(x, 1)]
  {
    var n := if Lookup(t, x).Some? then Lookup(t, x).value + 1 else 1;
    assert Bump(t, x) == Put(t, x, n);
    PutSpec(t, x, n);
  }

  /** `dur_dict` after counting `durs` in order. */
  function Tally(durs: seq<real>): seq<(real, nat)>
  {
    if durs == [] then [] else Bump(Tally(durs[..|durs| - 1]), durs[|durs| - 1])
  }

  lemma TallySnoc(s: seq<real>, x: real)
    ensures Tally(s + [x]) == Bump(Tally(s), x)
  {
    assert (s + [x])[..|s|] == s;
  }

  /** The tally after one more bar: its duration counted once more, if it parses. */
  lemma TallyNext(kit: Toolkit, d: seq<(string, string)>, i: nat)
    requires i < |d|
    ensures Tally(Durations(kit, d[..i + 1])) ==
              match kit.duration(BarBody(kit, d[i].1))
              case Some(x) => Bump(Tally(Durations(kit, d[..i])), x)
              case None => Tally(Durations(kit, d[..i]))
  {
    var durs := Durations(kit, d[..i]);
    DurationsNext(kit, d, i);
    match kit.duration(BarBody(kit, d[i].1))
    case Some(x) => TallySnoc(durs, x);
    case None => assert durs + [] == durs;
  }

  /** Index of the first occurrence of `x`. */
  function Position(s: seq<real>, x: real): (r: nat)
    requires x in s
    ensures r < |s| && s[r] == x && forall j :: 0 <= j < r ==> s[j] != x
  {
    if s[0] == x then 0 else 1 + Position(s[1..], x)
  }

  lemma PositionPrefix(s: seq<real>, n: nat, x: real)
    requires n <= |s| && x in s[..n]
    ensures Position(s, x) == Position(s[..n], x)
  {
    var p := Position(s[..n], x);
    assert s[p] == x;
    assert forall j :: 0 <= j < p ==> s[j] == s[..n][j];
  }

  /** Each duration is counted under one key, as often as it occurs. */
  lemma {:induction false} TallyCounts(durs: seq<real>)
    ensures Distinct(Tally(durs))
    ensures forall x :: Lookup(Tally(durs), x) == if x in durs then Some(multiset(durs)[x]) else None
  {
    TallyDistinct(durs);
    forall x ensures Lookup(Tally(durs), x) == if x in durs then Some(multiset(durs)[x]) else None {
      TallyCount(durs, x);
      assert x in durs <==> x in multiset(durs);
    }
  }

  lemma {:induction false} TallyDistinct(durs: seq<real>)
    ensures Distinct(Tally(durs))
  {
    if durs != [] {
      var n := |durs| - 1;
      TallyDistinct(durs[..n]);
      BumpSpec(Tally(durs[..n]), durs[n]);
    }
  }

  lemma {:induction false} TallyCount(durs: seq<real>, x: real)
    ensures Lookup(Tally(durs), x) == if multiset(durs)[x] > 0 then Some(multiset(durs)[x]) else None
  {
    if durs != [] {
      var n := |durs| - 1;
      var p := durs[..n];
      var y := durs[n];
      assert durs == p + [y];
      TallyCount(p, x);
      TallySnoc(p, y);
      BumpLookup(Tally(p), y, x);
      CountSnoc(p, y, x);
    }
  }

  lemma CountSnoc(p: seq<real>, y: real, x: real)
    ensures multiset(p + [y])[x] == multiset(p)[x] + (if x == y then 1 else 0)
  {
    assert multiset(p + [y]) == multiset(p) + multiset{y};
  }

  lemma BumpLookup(t: seq<(real, nat)>, y: real, x: real)
    ensures Lookup(Bump(t, y), x) == if x == y then Some(if Lookup(t, y).Some? then Lookup(t, y).value + 1 else 1) else Lookup(t, x)
  {
    BumpSpec(t, y);
  }

  /** The keys of the tally stand in the order of their first occurrence. */
  lemma {:induction false} TallyOrder(durs: seq<real>)
    ensures forall i :: 0 <= i < |Tally(durs)| ==> Tally(durs)[i].0 in durs
    ensures forall i, j :: 0 <= i < j < |Tally(durs)| ==>
              Position(durs, Tally(durs)[i].0) < Position(durs, Tally(durs)[j].0)
  {
    if durs != [] {
      var n := |durs| - 1;
      TallyOrder(durs[..n]);
      TallyCounts(durs[..n]);
      TallyOrderStep(durs, n, Tally(durs[..n]));
    }
  }

  lemma TallyOrderStep(durs: seq<real>, n: nat, t: seq<(real, nat)>)
    requires n == |durs| - 1
    requires forall i :: 0 <= i < |t| ==> t[i].0 in durs[..n]
    requires forall i, j :: 0 <= i < j < |t| ==> Position(durs[..n], t[i].0) < Position(durs[..n], t[j].0)
    requires forall x :: Lookup(t, x).None? <==> x !in durs[..n]
    ensures var t' := Bump(t, durs[n]);
            && (forall i :: 0 <= i < |t'| ==> t'[i].0 in durs)
            && (forall i, j :: 0 <= i < j < |t'| ==> Position(durs, t'[i].0) < Position(durs, t'[j].0))
  {
    var p := durs[..n];
    var y := durs[n];
    var t' := Bump(t, y);
    BumpSpec(t, y);
    assert durs == p + [y];
    assert Keys(t') == Keys(t) || t' == t + [(y, 1)];
    assert |t| <= |t'|;
    assert forall i :: 0 <= i < |t| ==> t'[i].0 == t[i].0 by {
      forall i | 0 <= i < |t| ensures t'[i].0 == t[i].0 {
        if Keys(t') == Keys(t) {
          assert Keys(t')[i] == Keys(t)[i];
        }
      }
    }
    forall i | 0 <= i < |t'| ensures t'[i].0 in durs {
      if i < |t| {
        assert t[i].0 in p;
      } else {
        assert t' == t + [(y, 1)];
      }
    }
    forall i, j | 0 <= i < j < |t'| ensures Position(durs, t'[i].0) < Position(durs, t'[j].0) {
      PositionPrefix(durs, n, t[i].0);
      if j < |t| {
        PositionPrefix(durs, n, t[j].0);
      } else {
        assert t' == t + [(y, 1)] && t'[j].0 == y;
        assert KeyIndex(t, y).None?;
        assert y !in p;
        assert Position(durs, y) == n;
      }
    }
  }

  /** Python's `max(iterable, key=...)`: the first entry with the largest count. */
  function MaxIndex(t: seq<(real, nat)>): (r: nat)
    requires t != []
    ensures r < |t|
    ensures forall j :: 0 <= j < |t| ==> t[j].1 <= t[r].1
    ensures forall j :: 0 <= j < r ==> t[j].1 < t[r].1
  {
    if |t| == 1 then 0
    else
      var b := MaxIndex(t[..|t| - 1]);
      assert forall j :: 0 <= j < |t| - 1 ==> t[j] == t[..|t| - 1][j];
      if t[|t| - 1].1 > t[b].1 then |t| - 1 else b
  }

  /** `max(dur_dict, key=dur_dict.get)`, with `None` where it raises on an
      empty dictionary. */
  function RefDuration(durs: seq<real>): Option<real>
  {
    var t := Tally(durs);
    if t == [] then None else Some(t[MaxIndex(t)].0)
  }

  /** The reference duration is the most frequent parsed duration, ties
      going to the one that occurs first; there is none only when no bar
      parsed. */
  lemma RefDurationIsMajority(durs: seq<real>)
    ensures RefDuration(durs).None? <==> durs == []
    ensures RefDuration(durs).Some? ==>
              var r := RefDuration(durs).value;
              && r in durs
              && (forall x :: x in durs ==> multiset(durs)[x] <= multiset(durs)[r])
              && (forall x :: x in durs && multiset(durs)[x] == multiset(durs)[r] ==> Position(durs, r) <= Position(durs, x))
  {
    var t := Tally(durs);
    if durs != [] {
      TallyCounts(durs);
      assert Lookup(t, durs[0]).Some?;
      var r := t[MaxIndex(t)].0;
      forall x | x in durs
        ensures multiset(durs)[x] <= multiset(durs)[r]
        ensures multiset(durs)[x] == multiset(durs)[r] ==> Position(durs, r) <= Position(durs, x)
      {
        MajorityOver(durs, x);
      }
      MajorityOver(durs, durs[0]);
    } else {
      assert t == [];
    }
  }

  /** The entry the vote picks is counted at least as often as any parsed
      duration `x`, and occurs no later than `x` when they tie. */
  lemma MajorityOver(durs: seq<real>, x: real)
    requires x in durs && Tally(durs) != []
    ensures var t := Tally(durs);
            var r := t[MaxIndex(t)].0;
            && r in durs
            && multiset(durs)[x] <= multiset(durs)[r]
            && (multiset(durs)[x] == multiset(durs)[r] ==> Position(durs, r) <= Position(durs, x))
  {
    TallyCounts(durs);
    TallyOrder(durs);
    var t := Tally(durs);
    var b := MaxIndex(t);
    var r := t[b].0;
    assert r in durs;
    LookupDistinct(t, b);
    assert multiset(durs)[r] == t[b].1;
    assert Lookup(t, x) == Some(multiset(durs)[x]);
    var j := KeyIndex(t, x).value;
    assert t[j].0 == x && t[j].1 == multiset(durs)[x];
    assert t[j].1 <= t[b].1;
    if t[j].1 == t[b].1 && j != b {
      assert j > b;
      assert Position(durs, t[b].0) < Position(durs, t[j].0);
    }
  }

  /** `right_barline` after the duration loop: the barline of the last bar
      of the line, or the value left over from earlier lines when the line
      has no bars. */
  function BarlineAfter(kit: Toolkit, d: seq<(string, string)>, barline: Option<string>): (r: Option<string>)
    ensures d != [] ==> r == Some(kit.rightBarline(d[|d| - 1].1))
    ensures d == [] ==> r == barline
  {
    if d == [] then barline else Some(kit.rightBarline(d[|d| - 1].1))
  }

  /** The duration loop of gradio/inference.py:93-105. */
  method VoteDurations(kit: Toolkit, d: seq<(string, string)>, barline: Option<string>)
    returns (tally: seq<(real, nat)>, barline': Option<string>)
    ensures tally == Tally(Durations(kit, d))
    ensures barline' == BarlineAfter(kit, d, barline)
  {
    tally := [];
    barline' := barline;
    var i := 0;
    while i < |d|
      invariant 0 <= i <= |d|
      invariant tally == Tally(Durations(kit, d[..i]))
      invariant barline' == if i == 0 then barline else Some(kit.rightBarline(d[i - 1].1))
    {
      barline' := Some(kit.rightBarline(d[i].1));
      tally := CountBar(kit, d, i, tally);
      i := i + 1;
    }
    assert d[..i] == d;
  }

  /** One pass of the duration loop: bar `i` votes for its duration, if it parses. */
  method CountBar(kit: Toolkit, d: seq<(string, string)>, i: nat, tally: seq<(real, nat)>)
    returns (tally': seq<(real, nat)>)
    requires i < |d| && tally == Tally(Durations(kit, d[..i]))
    ensures tally' == Tally(Durations(kit, d[..i + 1]))
  {
    var rb := kit.rightBarline(d[i].1);
    var body := DropLast(d[i].1, |rb|);
    var dur := kit.duration(body);
    TallyNext(kit, d, i);
    tally' := tally;
    if dur.Some? {
      tally' := Bump(tally, dur.value);
    }
  }
}
