/** Voice grouping of `rest_unreduce` (gradio/inference.py:55-74): which
    voices the header declares, which `%%score` group each belongs to, which
    of them rest with `z` and which with `x`, and their numeric order. */
module Voices {
  import opened Wrappers
  import opened Text
  import Bars

  /** The ways `rest_unreduce` can raise; every one of them makes the
      generation attempt fail. */
  datatype UnreduceError =
    | VoiceBeforeScore            // NameError: `existed_voices` read before any `%%score` line
    | EmptyVoiceGroup             // IndexError: a `%%score` group with no voice in it
    | BadVoiceNumber(symbol: string)  // ValueError: `int()` of a voice symbol's suffix
    | NoReferenceDuration         // UnboundLocalError: `ref_dur` used before any bar parsed
    | NoBarline                   // UnboundLocalError: `right_barline` used before any bar was seen
    | NoBarText                   // UnboundLocalError: `symbol_bartext` reused before any was set

  /** `s[n:]` for `n >= 0`. */
  function From(s: string, n: nat): string
  {
    if n <= |s| then s[n..] else ""
  }

  /** First `)` at or after `i`, provided no newline comes before it. */
  function CloseParen(s: string, i: nat): (r: Option<nat>)
    requires i <= |s|
    ensures r.Some? ==> i <= r.value < |s| && s[r.value] == ')'
    decreases |s| - i
  {
    if i == |s| then None
    else if s[i] == ')' then Some(i)
    else if s[i] == '\n' then None
    else CloseParen(s, i + 1)
  }

  /** `re.findall(r'\((.*?)\)', s)`: the text inside each bracket pair. */
  function ParenContents(s: string): seq<string>
    decreases |s|
  {
    if s == [] then []
    else if s[0] == '(' then
      match CloseParen(s, 1)
      case Some(q) => [s[1..q]] + ParenContents(s[q + 1..])
      case None => ParenContents(s[1..])
    else ParenContents(s[1..])
  }

  /** The search for `)` passes over no `)` and no newline. */
  lemma {:induction false} CloseParenClear(s: string, i: nat)
    requires i <= |s| && CloseParen(s, i).Some?
    ensures forall j :: i <= j < CloseParen(s, i).value ==> s[j] != ')' && s[j] != '\n'
    decreases |s| - i
  {
    if s[i] != ')' {
      CloseParenClear(s, i + 1);
    }
  }

  /** A `)` with no `)` or newline before it, from `i` on, is the one found. */
  lemma {:induction false} CloseParenAt(s: string, i: nat, q: nat)
    requires i <= q < |s| && s[q] == ')'
    requires forall j :: i <= j < q ==> s[j] != ')' && s[j] != '\n'
    ensures CloseParen(s, i) == Some(q)
    decreases q - i
  {
    if i < q {
      CloseParenAt(s, i + 1, q);
    }
  }

  /** Every bracket content has no `)` and no newline, and stands in the
      line between `(` and `)`. */
  lemma {:induction false} ParenContentsPieces(s: string)
    ensures forall k :: 0 <= k < |ParenContents(s)| ==>
              && ')' !in ParenContents(s)[k] && '\n' !in ParenContents(s)[k]
              && Contains(s, "(" + ParenContents(s)[k] + ")")
    decreases |s|
  {
    if s != [] {
      if s[0] == '(' && CloseParen(s, 1).Some? {
        var q := CloseParen(s, 1).value;
        var w := s[1..q];
        var rest := s[q + 1..];
        ParenContentsPieces(rest);
        CloseParenClear(s, 1);
        assert forall j :: 0 <= j < |w| ==> w[j] == s[j + 1];
        assert s[..q + 1] == "(" + w + ")";
        assert StartsWith(s, "(" + w + ")");
        forall k | 0 <= k < |ParenContents(rest)|
          ensures Contains(s, "(" + ParenContents(rest)[k] + ")")
        {
          ContainsLater(s, q + 1, "(" + ParenContents(rest)[k] + ")");
        }
        assert ParenContents(s) == [w] + ParenContents(rest);
      } else {
        ParenContentsPieces(s[1..]);
        forall k | 0 <= k < |ParenContents(s[1..])|
          ensures Contains(s, "(" + ParenContents(s[1..])[k] + ")")
        {
          ContainsLater(s, 1, "(" + ParenContents(s[1..])[k] + ")");
        }
      }
    }
  }

  /** A line written as `gap(w)gap(w)...tail`, from pairs `(w, gap)`. */
  function Parenthesised(ps: seq<(string, string)>, tail: string): string
  {
    if ps == [] then tail else ps[0].1 + "(" + ps[0].0 + ")" + Parenthesised(ps[1..], tail)
  }

  /** Text without `(` holds no bracket pair. */
  lemma {:induction false} SkipGap(gap: string, rest: string)
    requires '(' !in gap
    ensures ParenContents(gap + rest) == ParenContents(rest)
    decreases |gap|
  {
    if gap != [] {
      assert gap[0] in gap;
      assert (gap + rest)[0] == gap[0] != '(';
      assert (gap + rest)[1..] == gap[1..] + rest;
      assert ParenContents(gap + rest) == ParenContents(gap[1..] + rest);
      SkipGap(gap[1..], rest);
    } else {
      assert gap + rest == rest;
    }
  }

  /** A bracket pair around text without `)` or newline is read as one group. */
  lemma OnePiece(w: string, rest: string)
    requires ')' !in w && '\n' !in w
    ensures ParenContents("(" + w + ")" + rest) == [w] + ParenContents(rest)
  {
    var s := "(" + w + ")" + rest;
    var q := |w| + 1;
    assert forall j :: 1 <= j < q ==> s[j] == w[j - 1];
    CloseParenAt(s, 1, q);
    assert s[1..q] == w;
    assert s[q + 1..] == rest;
  }

  /** Reading back a line of bracketed groups gives the groups' contents,
      in order, when no gap holds `(` and no content holds `)` or a newline. */
  lemma {:induction false} ParenContentsOf(ps: seq<(string, string)>, tail: string)
    requires forall k :: 0 <= k < |ps| ==> '(' !in ps[k].1 && ')' !in ps[k].0 && '\n' !in ps[k].0
    requires '(' !in tail
    ensures ParenContents(Parenthesised(ps, tail)) == Bars.Keys(ps)
  {
    if ps == [] {
      SkipGap(tail, "");
      assert tail + "" == tail;
    } else {
      var rest := Parenthesised(ps[1..], tail);
      ParenContentsOf(ps[1..], tail);
      assert Parenthesised(ps, tail) == ps[0].1 + ("(" + ps[0].0 + ")" + rest);
      SkipGap(ps[0].1, "(" + ps[0].0 + ")" + rest);
      OnePiece(ps[0].0, rest);
      assert Bars.Keys(ps) == [ps[0].0] + Bars.Keys(ps[1..]);
    }
  }

  /** A `%%score` line of bracketed groups gives one group per bracket, the
      whitespace-split voices inside it. */
  lemma ScoreGroupsOf(ps: seq<(string, string)>, tail: string)
    requires forall k :: 0 <= k < |ps| ==> '(' !in ps[k].1 && ')' !in ps[k].0 && '\n' !in ps[k].0
    requires '(' !in tail
    ensures |ScoreGroups(Parenthesised(ps, tail))| == |ps|
    ensures forall k :: 0 <= k < |ps| ==> ScoreGroups(Parenthesised(ps, tail))[k] == Words(ps[k].0)
  {
    ParenContentsOf(ps, tail);
  }

  /** The groups a `%%score` line lists, each split into voice names. */
  function ScoreGroups(line: string): (gs: seq<seq<string>>)
    ensures |gs| == |ParenContents(line)|
    ensures forall i :: 0 <= i < |gs| ==> gs[i] == Words(ParenContents(line)[i])
  {
    var pcs := ParenContents(line);
    seq(|pcs|, i requires 0 <= i < |pcs| => Words(pcs[i]))
  }

  function Flat(gs: seq<seq<string>>): seq<string>
  {
    if gs == [] then [] else gs[0] + Flat(gs[1..])
  }

  lemma {:induction false} FlatAppend(a: seq<seq<string>>, b: seq<seq<string>>)
    ensures Flat(a + b) == Flat(a) + Flat(b)
  {
    if a == [] {
      assert a + b == b;
    } else {
      assert (a + b)[0] == a[0];
      assert (a + b)[1..] == a[1..] + b;
      FlatAppend(a[1..], b);
    }
  }

  lemma {:induction false} InFlat(gs: seq<seq<string>>, i: nat, j: nat)
    requires i < |gs| && j < |gs[i]|
    ensures gs[i][j] in Flat(gs)
  {
    if i > 0 {
      InFlat(gs[1..], i - 1, j);
    }
  }

  /** The header state built by the metadata loop: `voice_group_list`,
      `part_symbol_list` and `existed_voices` (None while unbound). */
  datatype Grouping = Grouping(groups: seq<seq<string>>, parts: seq<string>, existed: Option<seq<string>>)

  /** One iteration of the metadata loop (gradio/inference.py:57-66). */
  function GroupLine(g: Grouping, line: string): Result<Grouping, UnreduceError>
  {
    if StartsWith(line, "%%score") then
      var groups := g.groups + ScoreGroups(line);
      Ok(Grouping(groups, g.parts, Some(Flat(groups))))
    else if StartsWith(line, "V:") then
      FirstWordOfTagged(line);
      var symbol := Words(line)[0];
      if g.existed.None? then Err(VoiceBeforeScore)
      else if symbol[2..] in g.existed.value then Ok(g.(parts := g.parts + [symbol]))
      else Ok(Grouping(g.groups + [[symbol[2..]]], g.parts + [symbol], g.existed))
    else Ok(g)
  }

  /** The metadata loop over all lines, stopping at the first error. */
  function GroupLines(g: Grouping, lines: seq<string>): (r: Result<Grouping, UnreduceError>)
    ensures r.Err? ==> r.error == VoiceBeforeScore
    decreases |lines|
  {
    if lines == [] then Ok(g)
    else
      match GroupLine(g, lines[0])
      case Err(e) => Err(e)
      case Ok(g') => GroupLines(g', lines[1..])
  }

  const NoVoices := Grouping([], [], None)

  /** Every declared voice sits in some group, and `existed_voices` only
      names grouped voices. */
  ghost predicate Covered(g: Grouping) {
    && (forall k :: 0 <= k < |g.parts| ==> StartsWith(g.parts[k], "V:") && g.parts[k][2..] in Flat(g.groups))
    && (g.existed.Some? ==> forall v :: v in g.existed.value ==> v in Flat(g.groups))
  }

  lemma GroupLineCovered(g: Grouping, line: string)
    requires Covered(g) && GroupLine(g, line).Ok?
    ensures Covered(GroupLine(g, line).value)
  {
    var g' := GroupLine(g, line).value;
    if StartsWith(line, "%%score") {
      FlatAppend(g.groups, ScoreGroups(line));
    } else if StartsWith(line, "V:") {
      FirstWordOfTagged(line);
      var symbol := Words(line)[0];
      if symbol[2..] !in g.existed.value {
        FlatAppend(g.groups, [[symbol[2..]]]);
        assert Flat([[symbol[2..]]]) == [symbol[2..]];
      }
    }
  }

  /** A voice named by a `V:` line always ends up in a group: either the
      `%%score` line listed it or it becomes a group of its own
      (gradio/inference.py:62-66). */
  lemma {:induction false} GroupLinesCovered(g: Grouping, lines: seq<string>)
    requires Covered(g) && GroupLines(g, lines).Ok?
    ensures Covered(GroupLines(g, lines).value)
    decreases |lines|
  {
    if lines != [] {
      GroupLineCovered(g, lines[0]);
      GroupLinesCovered(GroupLine(g, lines[0]).value, lines[1..]);
    }
  }

  /** `line.split()[0]` of a `V:` line. */
  function VoiceSymbol(line: string): (r: string)
    requires StartsWith(line, "V:")
    ensures StartsWith(r, "V:")
  {
    FirstWordOfTagged(line);
    Words(line)[0]
  }

  /** A `V:` line whose voice no `%%score` line listed records the part and
      makes the voice a group of its own, after the existing groups. */
  lemma UnlistedVoiceGetsGroup(g: Grouping, line: string)
    requires StartsWith(line, "V:") && g.existed.Some? && VoiceSymbol(line)[2..] !in g.existed.value
    ensures GroupLine(g, line) == Ok(Grouping(g.groups + [[VoiceSymbol(line)[2..]]], g.parts + [VoiceSymbol(line)], g.existed))
  {
    assert line[0] == 'V';
  }

  /** The loop over `a + b` is the loop over `a`, then over `b` from where it stopped. */
  lemma {:induction false} GroupLinesSplit(g: Grouping, lines: seq<string>, k: nat)
    requires k <= |lines|
    ensures GroupLines(g, lines) ==
              match GroupLines(g, lines[..k])
              case Err(e) => Err(e)
              case Ok(g') => GroupLines(g', lines[k..])
    decreases k
  {
    if k == 0 {
      assert lines[..0] == [] && lines[0..] == lines;
    } else {
      assert lines[..k][0] == lines[0] && lines[..k][1..] == lines[1..][..k - 1];
      assert lines[1..][k - 1..] == lines[k..];
      if GroupLine(g, lines[0]).Ok? {
        GroupLinesSplit(GroupLine(g, lines[0]).value, lines[1..], k - 1);
      }
    }
  }

  /** The loop only ever appends groups and parts. */
  lemma {:induction false} GroupLinesGrow(g: Grouping, lines: seq<string>)
    requires GroupLines(g, lines).Ok?
    ensures var g' := GroupLines(g, lines).value;
            && |g.groups| <= |g'.groups| && g'.groups[..|g.groups|] == g.groups
            && |g.parts| <= |g'.parts| && g'.parts[..|g.parts|] == g.parts
    decreases |lines|
  {
    if lines != [] {
      var g1 := GroupLine(g, lines[0]).value;
      assert g1.groups[..|g.groups|] == g.groups && g1.parts[..|g.parts|] == g.parts;
      GroupLinesGrow(g1, lines[1..]);
      var g' := GroupLines(g, lines).value;
      assert g'.groups[..|g.groups|] == g'.groups[..|g1.groups|][..|g.groups|];
      assert g'.parts[..|g.parts|] == g'.parts[..|g1.parts|][..|g.parts|];
    }
  }

  /** The metadata loop of gradio/inference.py:57-66. */
  method GroupVoices(meta: seq<string>) returns (r: Result<Grouping, UnreduceError>)
    ensures r == GroupLines(NoVoices, meta)
  {
    var groups: seq<seq<string>> := [];
    var parts: seq<string> := [];
    var existed: Option<seq<string>> := None;
    var i := 0;
    while i < |meta|
      invariant 0 <= i <= |meta|
      invariant GroupLines(NoVoices, meta) == GroupLines(Grouping(groups, parts, existed), meta[i..])
    {
      var line := meta[i];
      assert meta[i..][0] == line && meta[i..][1..] == meta[i + 1..];
      ghost var g := Grouping(groups, parts, existed);
      assert !(StartsWith(line, "%%score") && StartsWith(line, "V:")) by {
        if StartsWith(line, "%%score") { assert line[0] == '%'; }
      }
      if StartsWith(line, "%%score") {
        groups := AddScoreGroups(groups, line);
        existed := Some(Flat(groups));
      }
      if StartsWith(line, "V:") {
        FirstWordOfTagged(line);
        var symbol := Words(line)[0];
        parts := parts + [symbol];
        if existed.None? {
          return Err(VoiceBeforeScore);
        }
        if symbol[2..] !in existed.value {
          groups := groups + [[symbol[2..]]];
        }
      }
      assert GroupLine(g, line) == Ok(Grouping(groups, parts, existed));
      i := i + 1;
    }
    r := Ok(Grouping(groups, parts, existed));
  }

  /** `for m in re.findall(...): voice_group_list.append(m.split())` */
  method AddScoreGroups(groups: seq<seq<string>>, line: string) returns (r: seq<seq<string>>)
    ensures r == groups + ScoreGroups(line)
  {
    var contents := ParenContents(line);
    ghost var all := ScoreGroups(line);
    r := groups;
    var k := 0;
    while k < |contents|
      invariant 0 <= k <= |contents|
      invariant r == groups + all[..k]
    {
      r := r + [Words(contents[k])];
      k := k + 1;
      assert all[..k] == all[..k - 1] + [all[k - 1]];
    }
    assert all[..k] == all;
  }

  /** `['V:' + v for v in vs]` */
  function Tagged(vs: seq<string>): (r: seq<string>)
    ensures |r| == |vs| && forall i :: 0 <= i < |vs| ==> r[i] == "V:" + vs[i]
  {
    seq(|vs|, i requires 0 <= i < |vs| => "V:" + vs[i])
  }

  /** `z_symbol_list` and `x_symbol_list` (gradio/inference.py:67-72): the
      first voice of each group rests with `z`, the others with `x`. An
      empty group raises. */
  function SymbolLists(groups: seq<seq<string>>): (r: Result<(seq<string>, seq<string>), UnreduceError>)
    ensures r.Err? <==> exists i :: 0 <= i < |groups| && groups[i] == []
    ensures r.Err? ==> r.error == EmptyVoiceGroup
    ensures r.Ok? ==> |r.value.0| == |groups| && forall i :: 0 <= i < |groups| ==> r.value.0[i] == "V:" + groups[i][0]
  {
    if groups == [] then Ok(([], []))
    else if groups[0] == [] then Err(EmptyVoiceGroup)
    else
      match SymbolLists(groups[1..])
      case Err(e) =>
        assert exists i :: 0 <= i < |groups[1..]| && groups[1..][i] == [];
        Err(e)
      case Ok(zx) => Ok((["V:" + groups[0][0]] + zx.0, Tagged(groups[0][1..]) + zx.1))
  }

  /** The `x` list holds exactly the voices that follow the first one in
      their group. */
  lemma {:induction false} SymbolListsFollowers(groups: seq<seq<string>>)
    requires SymbolLists(groups).Ok?
    ensures forall i, j :: 0 <= i < |groups| && 1 <= j < |groups[i]| ==> "V:" + groups[i][j] in SymbolLists(groups).value.1
    ensures forall s :: s in SymbolLists(groups).value.1 ==>
              exists i, j :: 0 <= i < |groups| && 1 <= j < |groups[i]| && s == "V:" + groups[i][j]
  {
    if groups != [] {
      var rest := groups[1..];
      SymbolListsFollowers(rest);
      var x' := SymbolLists(rest).value.1;
      var head := Tagged(groups[0][1..]);
      assert SymbolLists(groups).value.1 == head + x';
      forall i, j | 0 <= i < |groups| && 1 <= j < |groups[i]|
        ensures "V:" + groups[i][j] in SymbolLists(groups).value.1
      {
        if i == 0 {
          assert head[j - 1] == "V:" + groups[0][j];
        } else {
          assert groups[i] == rest[i - 1];
        }
      }
      forall s | s in SymbolLists(groups).value.1
        ensures exists i, j :: 0 <= i < |groups| && 1 <= j < |groups[i]| && s == "V:" + groups[i][j]
      {
        if s in head {
          var k :| 0 <= k < |head| && head[k] == s;
          assert s == "V:" + groups[0][k + 1];
        } else {
          var i, j :| 0 <= i < |rest| && 1 <= j < |rest[i]| && s == "V:" + rest[i][j];
          assert s == "V:" + groups[i + 1][j];
        }
      }
    }
  }

  /** Every grouped voice rests with `z` or with `x`. */
  lemma SymbolListsCover(groups: seq<seq<string>>, v: string)
    requires SymbolLists(groups).Ok? && v in Flat(groups)
    ensures "V:" + v in SymbolLists(groups).value.0 || "V:" + v in SymbolLists(groups).value.1
  {
    var i, j := FlatIndex(groups, v);
    SymbolListsFollowers(groups);
    if j == 0 {
      assert SymbolLists(groups).value.0[i] == "V:" + v;
    }
  }

  lemma {:induction false} FlatIndex(gs: seq<seq<string>>, v: string) returns (i: nat, j: nat)
    requires v in Flat(gs)
    ensures i < |gs| && j < |gs[i]| && gs[i][j] == v
  {
    if v in gs[0] {
      var k :| 0 <= k < |gs[0]| && gs[0][k] == v;
      i, j := 0, k;
    } else {
      assert Flat(gs) == gs[0] + Flat(gs[1..]);
      var i', j' := FlatIndex(gs[1..], v);
      i, j := i' + 1, j';
    }
  }

  lemma SymbolListsStep(groups: seq<seq<string>>, i: nat)
    requires i < |groups| && groups[i] != []
    ensures SymbolLists(groups[i..]) == Prepended(["V:" + groups[i][0]], Tagged(groups[i][1..]), SymbolLists(groups[i + 1..]))
  {
    assert groups[i..][0] == groups[i] && groups[i..][1..] == groups[i + 1..];
  }

  lemma PrependedTwice(z0: seq<string>, x0: seq<string>, z1: seq<string>, x1: seq<string>,
                       rest: Result<(seq<string>, seq<string>), UnreduceError>)
    ensures Prepended(z0, x0, Prepended(z1, x1, rest)) == Prepended(z0 + z1, x0 + x1, rest)
  {
    match rest {
      case Err(_) =>
      case Ok(zx) =>
        assert z0 + (z1 + zx.0) == (z0 + z1) + zx.0;
        assert x0 + (x1 + zx.1) == (x0 + x1) + zx.1;
    }
  }

  /** `for j in range(1, len(group)): x_symbol_list.append('V:' + group[j])` */
  method AddFollowers(x: seq<string>, group: seq<string>) returns (r: seq<string>)
    requires group != []
    ensures r == x + Tagged(group[1..])
  {
    r := x;
    var j := 1;
    while j < |group|
      invariant 1 <= j <= |group|
      invariant r == x + Tagged(group[1..j])
    {
      r := r + ["V:" + group[j]];
      j := j + 1;
      assert Tagged(group[1..j]) == Tagged(group[1..j - 1]) + ["V:" + group[j - 1]];
    }
    assert group[1..j] == group[1..];
  }

  /** The loop of gradio/inference.py:67-72. */
  method BuildSymbolLists(groups: seq<seq<string>>) returns (r: Result<(seq<string>, seq<string>), UnreduceError>)
    ensures r == SymbolLists(groups)
  {
    var z: seq<string> := [];
    var x: seq<string> := [];
    var i := 0;
    assert groups[i..] == groups;
    PrependedTwice([], [], [], [], SymbolLists(groups));
    assert Prepended([], [], SymbolLists(groups)) == SymbolLists(groups) by {
      match SymbolLists(groups) {
        case Err(_) =>
        case Ok(zx) => assert [] + zx.0 == zx.0 && [] + zx.1 == zx.1;
      }
    }
    while i < |groups|
      invariant 0 <= i <= |groups|
      invariant SymbolLists(groups) == Prepended(z, x, SymbolLists(groups[i..]))
    {
      var group := groups[i];
      if group == [] {
        assert groups[i..][0] == [];
        return Err(EmptyVoiceGroup);
      }
      SymbolListsStep(groups, i);
      PrependedTwice(z, x, ["V:" + group[0]], Tagged(group[1..]), SymbolLists(groups[i + 1..]));
      z := z + ["V:" + group[0]];
      x := AddFollowers(x, group);
      i := i + 1;
    }
    assert groups[i..] == [];
    assert z + [] == z && x + [] == x;
    r := Ok((z, x));
  }

  /** `(z, x)` followed by the lists of the remaining groups. */
  function Prepended(z: seq<string>, x: seq<string>, rest: Result<(seq<string>, seq<string>), UnreduceError>): Result<(seq<string>, seq<string>), UnreduceError>
  {
    match rest
    case Err(e) => Err(e)
    case Ok(zx) => Ok((z + zx.0, x + zx.1))
  }

  /** `int(symbol[2:])` */
  function VoiceNumber(symbol: string): Option<int>
  {
    ParseInt(From(symbol, 2))
  }

  /** The sort keys `key(x)`, computed for every symbol in order; the first
      symbol without a key raises. */
  function KeysBy(parts: seq<string>, key: string -> Option<int>): (r: Result<seq<(string, int)>, UnreduceError>)
    ensures r.Err? ==> r.error.BadVoiceNumber?
  {
    if parts == [] then Ok([])
    else
      match key(parts[0])
      case None => Err(BadVoiceNumber(parts[0]))
      case Some(n) =>
        match KeysBy(parts[1..], key)
        case Err(e) => Err(e)
        case Ok(ks) => Ok([(parts[0], n)] + ks)
  }

  /** The keys pair every symbol, in order, with its key. */
  lemma {:induction false} KeysByPair(parts: seq<string>, key: string -> Option<int>, k: nat)
    requires KeysBy(parts, key).Ok? && k < |parts|
    ensures |KeysBy(parts, key).value| == |parts|
    ensures key(parts[k]).Some?
    ensures KeysBy(parts, key).value[k] == (parts[k], key(parts[k]).value)
  {
    var rest := KeysBy(parts[1..], key);
    assert key(parts[0]).Some? && rest.Ok?;
    assert KeysBy(parts, key) == Ok([(parts[0], key(parts[0]).value)] + rest.value);
    if |parts| > 1 {
      KeysByPair(parts[1..], key, if k == 0 then 0 else k - 1);
    }
    if k > 0 {
      assert parts[k] == parts[1..][k - 1];
    }
  }

  /** The keys fail exactly when some symbol has no key. */
  lemma {:induction false} KeysByFail(parts: seq<string>, key: string -> Option<int>)
    ensures KeysBy(parts, key).Err? <==> exists i :: 0 <= i < |parts| && key(parts[i]).None?
  {
    if parts != [] && key(parts[0]).Some? {
      var tail := parts[1..];
      KeysByFail(tail, key);
      if KeysBy(tail, key).Err? {
        var i :| 0 <= i < |tail| && key(tail[i]).None?;
        assert key(parts[i + 1]).None?;
      } else {
        forall i | 0 <= i < |parts| ensures key(parts[i]).Some? {
          if i > 0 { assert parts[i] == tail[i - 1]; }
        }
      }
    }
  }

  function InsertByKey(x: (string, int), t: seq<(string, int)>): seq<(string, int)>
  {
    if t == [] || x.1 <= t[0].1 then [x] + t else [t[0]] + InsertByKey(x, t[1..])
  }

  /** Python's stable `sort(key=...)`, as an insertion sort. */
  function SortByKey(s: seq<(string, int)>): seq<(string, int)>
  {
    if s == [] then [] else InsertByKey(s[0], SortByKey(s[1..]))
  }

  ghost predicate SortedByKey(s: seq<(string, int)>) {
    forall i, j :: 0 <= i < j < |s| ==> s[i].1 <= s[j].1
  }

  lemma {:induction false} InsertByKeyCorrect(x: (string, int), t: seq<(string, int)>)
    requires SortedByKey(t)
    ensures SortedByKey(InsertByKey(x, t))
    ensures multiset(InsertByKey(x, t)) == multiset{x} + multiset(t)
  {
    InsertByKeyPerm(x, t);
    if t != [] && x.1 > t[0].1 {
      var r := InsertByKey(x, t[1..]);
      InsertByKeyCorrect(x, t[1..]);
      InsertByKeyBound(x, t[1..], t[0].1);
      assert InsertByKey(x, t) == [t[0]] + r;
      ConsSorted(t[0], r);
    }
  }

  lemma ConsSorted(h: (string, int), r: seq<(string, int)>)
    requires SortedByKey(r) && forall j :: 0 <= j < |r| ==> h.1 <= r[j].1
    ensures SortedByKey([h] + r)
  {
    var out := [h] + r;
    forall i, j | 0 <= i < j < |out| ensures out[i].1 <= out[j].1 {
      assert out[j] == r[j - 1];
      if i > 0 {
        assert out[i] == r[i - 1];
      }
    }
  }

  /** A bound below `x` and every entry of `t` stays below every entry after insertion. */
  lemma {:induction false} InsertByKeyBound(x: (string, int), t: seq<(string, int)>, lo: int)
    requires lo <= x.1 && forall j :: 0 <= j < |t| ==> lo <= t[j].1
    ensures forall j :: 0 <= j < |InsertByKey(x, t)| ==> lo <= InsertByKey(x, t)[j].1
  {
    if t != [] && x.1 > t[0].1 {
      InsertByKeyBound(x, t[1..], lo);
      var r := InsertByKey(x, t[1..]);
      assert InsertByKey(x, t) == [t[0]] + r;
      forall j | 0 <= j < 1 + |r| ensures lo <= ([t[0]] + r)[j].1 {
        if j > 0 { assert ([t[0]] + r)[j] == r[j - 1]; }
      }
    }
  }

  lemma {:induction false} InsertByKeyPerm(x: (string, int), t: seq<(string, int)>)
    ensures multiset(InsertByKey(x, t)) == multiset{x} + multiset(t)
  {
    if t != [] && x.1 > t[0].1 {
      InsertByKeyPerm(x, t[1..]);
      assert t == [t[0]] + t[1..];
    }
  }

  lemma {:induction false} SortByKeyCorrect(s: seq<(string, int)>)
    ensures SortedByKey(SortByKey(s))
    ensures multiset(SortByKey(s)) == multiset(s)
  {
    if s != [] {
      SortByKeyCorrect(s[1..]);
      InsertByKeyCorrect(s[0], SortByKey(s[1..]));
      assert s == [s[0]] + s[1..];
    }
  }

  lemma KeysCons(x: (string, int), t: seq<(string, int)>)
    ensures Bars.Keys([x] + t) == [x.0] + Bars.Keys(t)
  {
  }

  lemma {:induction false} InsertByKeyNames(x: (string, int), t: seq<(string, int)>)
    ensures multiset(Bars.Keys(InsertByKey(x, t))) == multiset{x.0} + multiset(Bars.Keys(t))
  {
    KeysCons(x, t);
    if t != [] && x.1 > t[0].1 {
      InsertByKeyNames(x, t[1..]);
      KeysCons(t[0], InsertByKey(x, t[1..]));
      KeysCons(t[0], t[1..]);
      assert t == [t[0]] + t[1..];
    }
  }

  /** Sorting moves the names around and loses or adds none. */
  lemma {:induction false} SortByKeyNames(s: seq<(string, int)>)
    ensures multiset(Bars.Keys(SortByKey(s))) == multiset(Bars.Keys(s))
  {
    if s != [] {
      SortByKeyNames(s[1..]);
      InsertByKeyNames(s[0], SortByKey(s[1..]));
      KeysCons(s[0], s[1..]);
      assert s == [s[0]] + s[1..];
    }
  }

  /** `parts.sort(key=key)`: the symbols in stable ascending key order;
      `Err` where some key is missing. */
  function SortBy(parts: seq<string>, key: string -> Option<int>): Result<seq<string>, UnreduceError>
  {
    var keyed :- KeysBy(parts, key);
    Ok(Bars.Keys(SortByKey(keyed)))
  }

  /** `part_symbol_list.sort(key=lambda x: int(x[2:]))` (gradio/inference.py:74). */
  function SortVoices(parts: seq<string>): Result<seq<string>, UnreduceError>
  {
    SortBy(parts, VoiceNumber)
  }

  /** The sorted symbols are the given ones, in ascending key order; the
      sort fails exactly when some symbol has no key. */
  lemma SortByCorrect(parts: seq<string>, key: string -> Option<int>)
    ensures SortBy(parts, key).Err? <==> exists i :: 0 <= i < |parts| && key(parts[i]).None?
    ensures SortBy(parts, key).Ok? ==>
              var sorted := SortBy(parts, key).value;
              && multiset(sorted) == multiset(parts)
              && (forall i :: 0 <= i < |sorted| ==> key(sorted[i]).Some?)
              && (forall i, j :: 0 <= i < j < |sorted| ==> key(sorted[i]).value <= key(sorted[j]).value)
  {
    KeysByFail(parts, key);
    if KeysBy(parts, key).Ok? {
      KeyedPairs(parts, key);
      SortedKeys(KeysBy(parts, key).value, key);
    }
  }

  /** The keyed list pairs each symbol, in order, with its key. */
  lemma KeyedPairs(parts: seq<string>, key: string -> Option<int>)
    requires KeysBy(parts, key).Ok?
    ensures Bars.Keys(KeysBy(parts, key).value) == parts
    ensures forall p :: p in KeysBy(parts, key).value ==> key(p.0) == Some(p.1)
  {
    var ks := KeysBy(parts, key).value;
    if parts != [] { KeysByPair(parts, key, 0); }
    assert |ks| == |parts|;
    forall i | 0 <= i < |parts| ensures key(parts[i]).Some? && ks[i] == (parts[i], key(parts[i]).value) {
      KeysByPair(parts, key, i);
    }
    assert Bars.Keys(ks) == parts;
  }

  /** Sorting pairs that carry their symbols' keys gives the same symbols in
      ascending key order. */
  lemma SortedKeys(ks: seq<(string, int)>, key: string -> Option<int>)
    requires forall p :: p in ks ==> key(p.0) == Some(p.1)
    ensures var sorted := Bars.Keys(SortByKey(ks));
            && multiset(sorted) == multiset(Bars.Keys(ks))
            && (forall i :: 0 <= i < |sorted| ==> key(sorted[i]).Some?)
            && (forall i, j :: 0 <= i < j < |sorted| ==> key(sorted[i]).value <= key(sorted[j]).value)
  {
    var t := SortByKey(ks);
    SortByKeyCorrect(ks);
    SortByKeyNames(ks);
    forall i | 0 <= i < |t| ensures key(t[i].0) == Some(t[i].1) {
      assert t[i] in multiset(ks);
    }
  }

  /** The sorted voices are the declared ones, in ascending numeric order;
      the sort fails exactly when some symbol's number does not parse. */
  lemma SortVoicesCorrect(parts: seq<string>)
    ensures SortVoices(parts).Err? <==> exists i :: 0 <= i < |parts| && VoiceNumber(parts[i]).None?
    ensures SortVoices(parts).Ok? ==>
              var sorted := SortVoices(parts).value;
              && multiset(sorted) == multiset(parts)
              && (forall i :: 0 <= i < |sorted| ==> VoiceNumber(sorted[i]).Some?)
              && (forall i, j :: 0 <= i < j < |sorted| ==> VoiceNumber(sorted[i]).value <= VoiceNumber(sorted[j]).value)
  {
    SortByCorrect(parts, VoiceNumber);
  }

}
