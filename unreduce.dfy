/** `rest_unreduce` (gradio/inference.py:44-131): the tune body, in which a
    line lists only the voices that play, is rewritten so that every
    declared voice has a bar on every line, absent voices getting a rest of
    the line's reference duration. */
module Unreduce {
  import opened Wrappers
  import opened Text
  import opened Voices
  import opened Bars

  /** What one tune-body line hands to the next: `ref_dur`,
      `right_barline` and `symbol_bartext`, `None` while still unbound. */
  datatype Carry = Carry(ref: Option<real>, barline: Option<string>, bartext: Option<string>)

  const Unbound := Carry(None, None, None)

  /** The sorted part symbols and the `z` and `x` symbol lists. */
  datatype Layout = Layout(parts: seq<string>, z: seq<string>, x: seq<string>)

  /** Every part rests with `z` or with `x`, so the voice loop never falls
      through to the `symbol_bartext` left over from an earlier voice. */
  predicate Covers(v: Layout) {
    forall s :: s in v.parts ==> s in v.z || s in v.x
  }

  predicate HasVoiceTag(line: string) {
    Contains(line, "[V:")
  }

  /** Index of the first line holding `[V:`. */
  function TunebodyIndex(lines: seq<string>): Option<nat>
  {
    FirstWhere(lines, HasVoiceTag)
  }

  /** `abc_lines[:tunebody_index]`, which is every line when there is no index. */
  function Meta(lines: seq<string>): (r: seq<string>)
    ensures TunebodyIndex(lines).Some? ==> r == lines[..TunebodyIndex(lines).value]
    ensures TunebodyIndex(lines).None? ==> r == lines
    ensures forall i :: 0 <= i < |r| && TunebodyIndex(lines).Some? ==> !HasVoiceTag(r[i])
  {
    match TunebodyIndex(lines)
    case Some(k) => lines[..k]
    case None => lines
  }

  /** `abc_lines[tunebody_index:]`, which is also every line when there is no index. */
  function Body(lines: seq<string>): (r: seq<string>)
    ensures TunebodyIndex(lines).Some? ==> r == lines[TunebodyIndex(lines).value..] && HasVoiceTag(r[0])
    ensures TunebodyIndex(lines).None? ==> r == lines
  {
    match TunebodyIndex(lines)
    case Some(k) => lines[k..]
    case None => lines
  }

  /** The `[V:n]bar` matches of a line, its `[r:...]` tag stripped. */
  function LineMatches(line: string): seq<(string, string)>
  {
    VoiceMatches(StripRefTag(line))
  }

  /** `prefix_left_barline`: the text before the first `[V:` on the first
      tune-body line, nothing on later lines. */
  function Prefix(line: string, first: bool): string
  {
    if first then BeforeFirst(StripRefTag(line), "[V:") else ""
  }

  /** `ref_dur` and `right_barline` after a line's duration loop. */
  function LineCarry(kit: Toolkit, d: seq<(string, string)>, carry: Carry): Carry
  {
    var ref := RefDuration(Durations(kit, d));
    Carry(if ref.Some? then ref else carry.ref, BarlineAfter(kit, d, carry.barline), carry.bartext)
  }

  /** The rest written for an absent voice: `z` for a group leader, `x`
      otherwise, then the reference duration and the barline. */
  function Filler(kit: Toolkit, v: Layout, sym: string, prefix: string, ref: real, barline: string): string
  {
    prefix + (if sym in v.z then "z" else "x") + kit.show(ref) + barline
  }

  /** `symbol_bartext` for one voice (gradio/inference.py:117-124): the
      voice's own bar when the line has one; otherwise a rest for a voice
      in the `z` or `x` list; otherwise whatever the previous iteration
      left. */
  function VoiceText(kit: Toolkit, v: Layout, d: seq<(string, string)>, sym: string, prefix: string, c: Carry): (r: Result<string, UnreduceError>)
    ensures Lookup(d, sym).Some? ==> r == Ok(Lookup(d, sym).value)
    ensures Lookup(d, sym).None? && (sym in v.z || sym in v.x) ==>
              r == if c.ref.None? then Err(NoReferenceDuration)
                   else if c.barline.None? then Err(NoBarline)
                   else Ok(Filler(kit, v, sym, prefix, c.ref.value, c.barline.value))
  {
    match Lookup(d, sym)
    case Some(t) => Ok(t)
    case None =>
      if sym in v.z || sym in v.x then
        if c.ref.None? then Err(NoReferenceDuration)
        else if c.barline.None? then Err(NoBarline)
        else Ok(Filler(kit, v, sym, prefix, c.ref.value, c.barline.value))
      else if c.bartext.None? then Err(NoBarText)
      else Ok(c.bartext.value)
  }

  /** `unreduced_line` and `symbol_bartext` after the voices `syms`, in order. */
  function Expanded(kit: Toolkit, v: Layout, d: seq<(string, string)>, syms: seq<string>, prefix: string, c: Carry): Result<(string, Option<string>), UnreduceError>
  {
    if syms == [] then Ok(("", c.bartext))
    else
      var n := |syms| - 1;
      var before :- Expanded(kit, v, d, syms[..n], prefix, c);
      var cell :- VoiceText(kit, v, d, syms[n], prefix, c.(bartext := before.1));
      Ok((before.0 + "[" + syms[n] + "]" + cell, Some(cell)))
  }

  /** The line the loop writes: `[sym]cell` for every voice, in order. */
  function Row(syms: seq<string>, cells: seq<string>): string
    requires |syms| == |cells|
  {
    if syms == [] then ""
    else
      var n := |syms| - 1;
      Row(syms[..n], cells[..n]) + "[" + syms[n] + "]" + cells[n]
  }

  /** What a voice gets on a line, stated over the matches of the line
      rather than over the dictionary: the text of its last segment, or,
      if it has none, a rest for which a reference duration and a barline
      must both be known. */
  function Cell(kit: Toolkit, v: Layout, ms: seq<(string, string)>, sym: string, prefix: string, c: Carry): Option<string>
  {
    match LastBar(ms, sym)
    case Some(t) => Some(t)
    case None =>
      if c.ref.Some? && c.barline.Some? then Some(Filler(kit, v, sym, prefix, c.ref.value, c.barline.value))
      else None
  }

  /** The body of the voice loop for one symbol: the text it writes after
      `[symbol]`, or the error it raises. */
  method VoiceCell(kit: Toolkit, v: Layout, d: seq<(string, string)>, symbol: string, prefix: string, c: Carry)
    returns (r: Result<string, UnreduceError>)
    ensures r == VoiceText(kit, v, d, symbol, prefix, c)
  {
    var bartext := c.bartext;
    match Lookup(d, symbol) {
      case Some(t) =>
        bartext := Some(t);
      case None =>
        if symbol in v.z || symbol in v.x {
          if c.ref.None? {
            return Err(NoReferenceDuration);
          }
          if c.barline.None? {
            return Err(NoBarline);
          }
          if symbol in v.z {
            bartext := Some(prefix + "z" + kit.show(c.ref.value) + c.barline.value);
          } else {
            bartext := Some(prefix + "x" + kit.show(c.ref.value) + c.barline.value);
          }
        } else if bartext.None? {
          return Err(NoBarText);
        }
    }
    r := Ok(bartext.value);
  }

  /** One iteration of the tune-body loop (gradio/inference.py:78-129):
      the rewritten line and the carry for the next line. */
  function UnreduceLine(kit: Toolkit, v: Layout, line: string, first: bool, carry: Carry): (r: Result<(string, Carry), UnreduceError>)
    ensures r.Ok? ==> EndsWith(r.value.0, "\n")
  {
    var d := BarDict(LineMatches(line));
    var c := LineCarry(kit, d, carry);
    var out :- Expanded(kit, v, d, v.parts, Prefix(line, first), c);
    Ok((out.0 + "\n", c.(bartext := out.1)))
  }

  /** A loop over lines that threads a carry and stops at the first error;
      `step` is told whether its line is the first one. */
  function Fold(step: (string, bool, Carry) -> Result<(string, Carry), UnreduceError>, lines: seq<string>, carry: Carry): (r: Result<(seq<string>, Carry), UnreduceError>)
    ensures r.Ok? ==> |r.value.0| == |lines|
  {
    if lines == [] then Ok(([], carry))
    else
      var n := |lines| - 1;
      var done :- Fold(step, lines[..n], carry);
      var lc :- step(lines[n], n == 0, done.1);
      Ok((done.0 + [lc.0], lc.1))
  }

  /** One more line: the loop so far, then `step` on the new line. */
  lemma FoldSnoc(step: (string, bool, Carry) -> Result<(string, Carry), UnreduceError>, lines: seq<string>, line: string, carry: Carry)
    ensures Fold(step, lines + [line], carry) ==
              match Fold(step, lines, carry)
              case Err(e) => Err(e)
              case Ok(done) =>
                match step(line, lines == [], done.1)
                case Err(e) => Err(e)
                case Ok(lc) => Ok((done.0 + [lc.0], lc.1))
  {
    assert (lines + [line])[..|lines|] == lines;
  }

  /** The loop after one more line, as a loop that keeps `out` and `carry`
      between iterations sees it. */
  lemma FoldNext(step: (string, bool, Carry) -> Result<(string, Carry), UnreduceError>, lines: seq<string>, start: Carry, i: nat,
                 out: seq<string>, carry: Carry, lc: Result<(string, Carry), UnreduceError>)
    requires i < |lines| && Fold(step, lines[..i], start) == Ok((out, carry))
    requires step(lines[i], i == 0, carry) == lc
    ensures lc.Ok? ==> Fold(step, lines[..i + 1], start) == Ok((out + [lc.value.0], lc.value.1))
    ensures lc.Err? ==> Fold(step, lines, start) == Err(lc.error)
  {
    assert lines[..i + 1] == lines[..i] + [lines[i]];
    FoldSnoc(step, lines[..i], lines[i], start);
    if lc.Err? {
      FoldStops(step, lines, start, i + 1);
    }
  }

  /** The loop stops at a line that raises. */
  lemma {:induction false} FoldStops(step: (string, bool, Carry) -> Result<(string, Carry), UnreduceError>, lines: seq<string>, carry: Carry, n: nat)
    requires n <= |lines| && Fold(step, lines[..n], carry).Err?
    ensures Fold(step, lines, carry) == Fold(step, lines[..n], carry)
    decreases |lines|
  {
    if n < |lines| {
      var m := |lines| - 1;
      assert lines[..m][..n] == lines[..n];
      FoldStops(step, lines[..m], carry, n);
    } else {
      assert lines[..n] == lines;
    }
  }

  /** Each output line is what `step` made of the input line at the same
      index, given the carry the earlier lines left. */
  lemma {:induction false} FoldLines(step: (string, bool, Carry) -> Result<(string, Carry), UnreduceError>, lines: seq<string>, carry: Carry, i: nat)
    requires Fold(step, lines, carry).Ok? && i < |lines|
    ensures Fold(step, lines[..i], carry).Ok?
    ensures var before := Fold(step, lines[..i], carry).value.1;
            && step(lines[i], i == 0, before).Ok?
            && Fold(step, lines, carry).value.0[i] == step(lines[i], i == 0, before).value.0
    decreases |lines|
  {
    var n := |lines| - 1;
    if i < n {
      assert lines[..n][..i] == lines[..i];
      FoldLines(step, lines[..n], carry, i);
    }
  }

  /** `rest_unreduce`'s step on one tune-body line, as a value for `Fold`. */
  function LineStep(kit: Toolkit, v: Layout): (string, bool, Carry) -> Result<(string, Carry), UnreduceError>
  {
    (line, first, c) => UnreduceLine(kit, v, line, first, c)
  }

  /** The tune-body loop with `rest_unreduce`'s line step, starting with
      nothing bound. */
  function UnreduceLines(kit: Toolkit, v: Layout, lines: seq<string>): Result<(seq<string>, Carry), UnreduceError>
  {
    Fold(LineStep(kit, v), lines, Unbound)
  }

  /** The voice layout of the metadata: grouping, `z`/`x` lists, sorting. */
  function LayoutOf(meta: seq<string>): (r: Result<Layout, UnreduceError>)
    ensures r.Ok? ==> Covers(r.value)
    ensures r.Err? ==> r.error == VoiceBeforeScore || r.error == EmptyVoiceGroup || r.error.BadVoiceNumber?
  {
    var g :- GroupLines(NoVoices, meta);
    var zx :- SymbolLists(g.groups);
    var sorted :- SortVoices(g.parts);
    LayoutCovers(meta, g, zx, sorted);
    Ok(Layout(sorted, zx.0, zx.1))
  }

  lemma LayoutCovers(meta: seq<string>, g: Grouping, zx: (seq<string>, seq<string>), sorted: seq<string>)
    requires GroupLines(NoVoices, meta) == Ok(g)
    requires SymbolLists(g.groups) == Ok(zx)
    requires SortVoices(g.parts) == Ok(sorted)
    ensures Covers(Layout(sorted, zx.0, zx.1))
  {
    GroupLinesCovered(NoVoices, meta);
    SortByCorrect(g.parts, VoiceNumber);
    PartsListed(g, zx, sorted);
  }

  lemma PartsListed(g: Grouping, zx: (seq<string>, seq<string>), sorted: seq<string>)
    requires Covered(g) && SymbolLists(g.groups) == Ok(zx)
    requires multiset(sorted) == multiset(g.parts)
    ensures forall s :: s in sorted ==> s in zx.0 || s in zx.1
  {
    forall s | s in sorted ensures s in zx.0 || s in zx.1 {
      assert s in multiset(g.parts);
      var k :| 0 <= k < |g.parts| && g.parts[k] == s;
      assert StartsWith(s, "V:") && s[2..] in Flat(g.groups);
      SymbolListsCover(g.groups, s[2..]);
      assert "V:" + s[2..] == s;
    }
  }

  /** `rest_unreduce(abc_lines)`: the metadata lines, then the rewritten
      tune-body lines; `Err` where the Python function raises. */
  function Unreduce(kit: Toolkit, lines: seq<string>): Result<seq<string>, UnreduceError>
  {
    var v :- LayoutOf(Meta(lines));
    var out :- UnreduceLines(kit, v, Body(lines));
    Ok(Meta(lines) + out.0)
  }

  // ---------------------------------------------------------------------
  // Properties

  /** The metadata lines come back unchanged, followed by exactly one
      newline-terminated line per tune-body line, each the rewrite of the
      tune-body line at the same place under the carry of the lines before. */
  lemma UnreduceShape(kit: Toolkit, lines: seq<string>)
    requires Unreduce(kit, lines).Ok?
    ensures var out := Unreduce(kit, lines).value;
            var v := LayoutOf(Meta(lines)).value;
            && |out| == |Meta(lines)| + |Body(lines)|
            && out[..|Meta(lines)|] == Meta(lines)
            && (forall i :: |Meta(lines)| <= i < |out| ==> EndsWith(out[i], "\n"))
            && (forall k :: 0 <= k < |Body(lines)| ==>
                  && UnreduceLines(kit, v, Body(lines)[..k]).Ok?
                  && UnreduceLine(kit, v, Body(lines)[k], k == 0, UnreduceLines(kit, v, Body(lines)[..k]).value.1).Ok?
                  && out[|Meta(lines)| + k] == UnreduceLine(kit, v, Body(lines)[k], k == 0, UnreduceLines(kit, v, Body(lines)[..k]).value.1).value.0)
  {
    var v := LayoutOf(Meta(lines)).value;
    var meta := Meta(lines);
    var rest := UnreduceLines(kit, v, Body(lines)).value.0;
    UnreduceLinesEnd(kit, v, Body(lines));
    assert Unreduce(kit, lines).value == meta + rest;
    MetaThenLines(meta, rest);
    forall k | 0 <= k < |Body(lines)|
      ensures UnreduceLines(kit, v, Body(lines)[..k]).Ok?
      ensures UnreduceLine(kit, v, Body(lines)[k], k == 0, UnreduceLines(kit, v, Body(lines)[..k]).value.1).Ok?
      ensures rest[k] == UnreduceLine(kit, v, Body(lines)[k], k == 0, UnreduceLines(kit, v, Body(lines)[..k]).value.1).value.0
    {
      FoldLines(LineStep(kit, v), Body(lines), Unbound, k);
    }
  }

  /** Every rewritten tune-body line ends in a newline. */
  lemma UnreduceLinesEnd(kit: Toolkit, v: Layout, body: seq<string>)
    requires UnreduceLines(kit, v, body).Ok?
    ensures var rest := UnreduceLines(kit, v, body).value.0;
            |rest| == |body| && forall j :: 0 <= j < |rest| ==> EndsWith(rest[j], "\n")
  {
    var step := LineStep(kit, v);
    var rest := Fold(step, body, Unbound).value.0;
    forall j | 0 <= j < |rest| ensures EndsWith(rest[j], "\n") {
      FoldLines(step, body, Unbound, j);
    }
  }

  lemma MetaThenLines(meta: seq<string>, rest: seq<string>)
    requires forall j :: 0 <= j < |rest| ==> EndsWith(rest[j], "\n")
    ensures (meta + rest)[..|meta|] == meta
    ensures forall i :: |meta| <= i < |meta + rest| ==> EndsWith((meta + rest)[i], "\n")
  {
    forall i | |meta| <= i < |meta + rest| ensures EndsWith((meta + rest)[i], "\n") {
      assert (meta + rest)[i] == rest[i - |meta|];
    }
  }

  /** When there is a tune body, the text before it is exactly the lines
      before the first `[V:` line, and the tune body starts with it. */
  lemma SplitAtFirstVoiceLine(lines: seq<string>)
    requires exists i :: 0 <= i < |lines| && HasVoiceTag(lines[i])
    ensures Meta(lines) + Body(lines) == lines
    ensures forall i :: 0 <= i < |Meta(lines)| ==> !HasVoiceTag(Meta(lines)[i])
    ensures |Body(lines)| > 0 && HasVoiceTag(Body(lines)[0])
  {
    var i :| 0 <= i < |lines| && HasVoiceTag(lines[i]);
    assert TunebodyIndex(lines).Some?;
    var k := TunebodyIndex(lines).value;
    assert lines[..k] + lines[k..] == lines;
  }

  /** The voices of the layout are the declared `V:` symbols, in ascending
      numeric order, and the first voice of every group rests with `z`. */
  lemma LayoutOrder(meta: seq<string>)
    requires LayoutOf(meta).Ok?
    ensures var v := LayoutOf(meta).value;
            var g := GroupLines(NoVoices, meta).value;
            && multiset(v.parts) == multiset(g.parts)
            && (forall i :: 0 <= i < |v.parts| ==> VoiceNumber(v.parts[i]).Some?)
            && (forall i, j :: 0 <= i < j < |v.parts| ==> VoiceNumber(v.parts[i]).value <= VoiceNumber(v.parts[j]).value)
            && |v.z| == |g.groups|
            && (forall i :: 0 <= i < |g.groups| ==> v.z[i] == "V:" + g.groups[i][0])
  {
    var g := GroupLines(NoVoices, meta).value;
    SortByCorrect(g.parts, VoiceNumber);
  }

  /** A `V:` voice that no earlier `%%score` line lists is a part of the
      tune and rests with `z`: it leads the group of its own that the
      metadata loop made for it. */
  lemma UnlistedVoiceRestsWithZ(meta: seq<string>, k: nat)
    requires k < |meta| && StartsWith(meta[k], "V:")
    requires GroupLines(NoVoices, meta[..k]).Ok?
    requires GroupLines(NoVoices, meta[..k]).value.existed.Some?
    requires VoiceSymbol(meta[k])[2..] !in GroupLines(NoVoices, meta[..k]).value.existed.value
    requires LayoutOf(meta).Ok?
    ensures VoiceSymbol(meta[k]) in LayoutOf(meta).value.z
    ensures VoiceSymbol(meta[k]) in LayoutOf(meta).value.parts
  {
    var sym := VoiceSymbol(meta[k]);
    var g1 := GroupLines(NoVoices, meta[..k]).value;
    UnlistedVoiceGetsGroup(g1, meta[k]);
    var g2 := GroupLine(g1, meta[k]).value;
    GroupLinesSplit(NoVoices, meta, k);
    assert meta[k..][0] == meta[k] && meta[k..][1..] == meta[k + 1..];
    assert GroupLines(g1, meta[k..]) == GroupLines(g2, meta[k + 1..]);
    var g := GroupLines(NoVoices, meta).value;
    GroupLinesGrow(g2, meta[k + 1..]);
    assert g.groups[|g1.groups|] == g2.groups[|g1.groups|] == [sym[2..]];
    assert g.parts[|g1.parts|] == g2.parts[|g1.parts|] == sym;
    LayoutOrder(meta);
    var v := LayoutOf(meta).value;
    assert sym == "V:" + sym[2..];
    assert v.z[|g1.groups|] == sym;
    assert sym in multiset(g.parts);
  }

  /** For a voice in the `z` or `x` list the text does not depend on what
      an earlier voice left in `symbol_bartext`. */
  lemma VoiceTextListed(kit: Toolkit, v: Layout, d: seq<(string, string)>, sym: string, prefix: string, c: Carry, b: Option<string>)
    requires sym in v.z || sym in v.x
    ensures VoiceText(kit, v, d, sym, prefix, c.(bartext := b)) == VoiceText(kit, v, d, sym, prefix, c)
    ensures VoiceText(kit, v, d, sym, prefix, c) != Err(NoBarText)
  {
  }

  /** `Expanded` writes one `[sym]cell` per voice, each cell the voice's
      `VoiceText`. */
  lemma {:induction false} ExpandedIsRow(kit: Toolkit, v: Layout, d: seq<(string, string)>, syms: seq<string>, prefix: string, c: Carry, cells: seq<string>)
    requires forall s :: s in syms ==> s in v.z || s in v.x
    requires |cells| == |syms|
    requires forall i :: 0 <= i < |syms| ==> VoiceText(kit, v, d, syms[i], prefix, c) == Ok(cells[i])
    ensures Expanded(kit, v, d, syms, prefix, c).Ok?
    ensures Expanded(kit, v, d, syms, prefix, c).value.0 == Row(syms, cells)
  {
    if syms != [] {
      var n := |syms| - 1;
      forall i | 0 <= i < n ensures VoiceText(kit, v, d, syms[..n][i], prefix, c) == Ok(cells[..n][i]) {
        assert syms[..n][i] == syms[i];
      }
      ExpandedIsRow(kit, v, d, syms[..n], prefix, c, cells[..n]);
      var before := Expanded(kit, v, d, syms[..n], prefix, c).value;
      assert syms[n] in syms;
      VoiceTextListed(kit, v, d, syms[n], prefix, c, before.1);
    }
  }

  /** Once a voice raises, the line raises with that error. */
  lemma {:induction false} ExpandedStops(kit: Toolkit, v: Layout, d: seq<(string, string)>, syms: seq<string>, prefix: string, c: Carry, n: nat)
    requires n <= |syms| && Expanded(kit, v, d, syms[..n], prefix, c).Err?
    ensures Expanded(kit, v, d, syms, prefix, c) == Expanded(kit, v, d, syms[..n], prefix, c)
  {
    if n < |syms| {
      var m := |syms| - 1;
      assert syms[..m][..n] == syms[..n];
      ExpandedStops(kit, v, d, syms[..m], prefix, c, n);
    } else {
      assert syms[..n] == syms;
    }
  }

  /** A listed voice that raises makes the line raise with its error:
      every absent listed voice fails the same way, as the error depends
      only on the carry. */
  lemma {:induction false} ExpandedFails(kit: Toolkit, v: Layout, d: seq<(string, string)>, syms: seq<string>, prefix: string, c: Carry, k: nat)
    requires forall s :: s in syms ==> s in v.z || s in v.x
    requires k < |syms| && VoiceText(kit, v, d, syms[k], prefix, c).Err?
    ensures Expanded(kit, v, d, syms, prefix, c) == Err(VoiceText(kit, v, d, syms[k], prefix, c).error)
  {
    var n := |syms| - 1;
    assert syms[k] in syms;
    if k < n {
      assert syms[..n][k] == syms[k];
      ExpandedFails(kit, v, d, syms[..n], prefix, c, k);
    } else if Expanded(kit, v, d, syms[..n], prefix, c).Err? {
      var j := FirstFailure(kit, v, d, syms[..n], prefix, c);
      assert syms[..n][j] == syms[j] && syms[j] in syms;
      ExpandedFails(kit, v, d, syms[..n], prefix, c, j);
    } else {
      VoiceTextListed(kit, v, d, syms[k], prefix, c, Expanded(kit, v, d, syms[..n], prefix, c).value.1);
    }
  }

  /** A failing `Expanded` over listed voices has a failing voice. */
  lemma {:induction false} FirstFailure(kit: Toolkit, v: Layout, d: seq<(string, string)>, syms: seq<string>, prefix: string, c: Carry) returns (j: nat)
    requires forall s :: s in syms ==> s in v.z || s in v.x
    requires Expanded(kit, v, d, syms, prefix, c).Err?
    ensures j < |syms| && VoiceText(kit, v, d, syms[j], prefix, c).Err?
  {
    var n := |syms| - 1;
    if Expanded(kit, v, d, syms[..n], prefix, c).Err? {
      j := FirstFailure(kit, v, d, syms[..n], prefix, c);
      assert syms[..n][j] == syms[j];
    } else {
      j := n;
      assert syms[n] in syms;
      VoiceTextListed(kit, v, d, syms[n], prefix, c, Expanded(kit, v, d, syms[..n], prefix, c).value.1);
    }
  }

  /** What a tune-body line becomes, stated over the line's own segments:
      when every declared voice has a cell, the line is `[V:n]cell` for
      each voice in layout order, a voice present on the line keeping the
      text of its last segment verbatim. */
  lemma UnreduceLineCells(kit: Toolkit, v: Layout, line: string, first: bool, carry: Carry, cells: seq<string>)
    requires Covers(v)
    requires |cells| == |v.parts|
    requires forall i :: 0 <= i < |v.parts| ==>
               Cell(kit, v, LineMatches(line), v.parts[i], Prefix(line, first), LineCarry(kit, BarDict(LineMatches(line)), carry)) == Some(cells[i])
    ensures var r := UnreduceLine(kit, v, line, first, carry);
            var c := LineCarry(kit, BarDict(LineMatches(line)), carry);
            && r.Ok? && r.value.0 == Row(v.parts, cells) + "\n"
            && r.value.1.ref == c.ref && r.value.1.barline == c.barline
  {
    var ms := LineMatches(line);
    var d := BarDict(ms);
    var c := LineCarry(kit, d, carry);
    BarDictLookup(ms);
    forall i | 0 <= i < |v.parts| ensures VoiceText(kit, v, d, v.parts[i], Prefix(line, first), c) == Ok(cells[i]) {
      assert v.parts[i] in v.parts;
    }
    ExpandedIsRow(kit, v, d, v.parts, Prefix(line, first), c, cells);
  }

  /** A declared voice without a cell makes the line raise: with no
      reference duration known, or with no barline known. */
  lemma UnreduceLineRaises(kit: Toolkit, v: Layout, line: string, first: bool, carry: Carry, k: nat)
    requires Covers(v)
    requires k < |v.parts|
    requires Cell(kit, v, LineMatches(line), v.parts[k], Prefix(line, first), LineCarry(kit, BarDict(LineMatches(line)), carry)).None?
    ensures var c := LineCarry(kit, BarDict(LineMatches(line)), carry);
            UnreduceLine(kit, v, line, first, carry) == Err(if c.ref.None? then NoReferenceDuration else NoBarline)
  {
    var ms := LineMatches(line);
    var d := BarDict(ms);
    var c := LineCarry(kit, d, carry);
    BarDictLookup(ms);
    assert v.parts[k] in v.parts;
    ExpandedFails(kit, v, d, v.parts, Prefix(line, first), c, k);
  }

  /** A line that does not raise is `[V:n]cell` for every declared voice,
      in layout order, each cell the voice's `Cell`. */
  lemma LineAsRow(kit: Toolkit, v: Layout, line: string, first: bool, carry: Carry)
    requires Covers(v) && UnreduceLine(kit, v, line, first, carry).Ok?
    ensures exists cells :: |cells| == |v.parts| && UnreduceLine(kit, v, line, first, carry).value.0 == Row(v.parts, cells) + "\n"
              && forall j :: 0 <= j < |v.parts| ==>
                   Cell(kit, v, LineMatches(line), v.parts[j], Prefix(line, first), LineCarry(kit, BarDict(LineMatches(line)), carry)) == Some(cells[j])
  {
    var ms := LineMatches(line);
    var prefix := Prefix(line, first);
    var c := LineCarry(kit, BarDict(ms), carry);
    forall j | 0 <= j < |v.parts| ensures Cell(kit, v, ms, v.parts[j], prefix, c).Some? {
      if Cell(kit, v, ms, v.parts[j], prefix, c).None? {
        UnreduceLineRaises(kit, v, line, first, carry, j);
        assert false;
      }
    }
    var cells := seq(|v.parts|, j requires 0 <= j < |v.parts| => Cell(kit, v, ms, v.parts[j], prefix, c).value);
    UnreduceLineCells(kit, v, line, first, carry, cells);
  }

  /** Every tune-body line `rest_unreduce` returns names every declared
      voice, once each, in ascending voice order: it is `[V:n]cell` for
      every part of the layout, then a newline. */
  lemma UnreduceRows(kit: Toolkit, lines: seq<string>)
    requires Unreduce(kit, lines).Ok?
    ensures var v := LayoutOf(Meta(lines)).value;
            var out := Unreduce(kit, lines).value;
            forall i :: |Meta(lines)| <= i < |out| ==>
              exists cells :: |cells| == |v.parts| && out[i] == Row(v.parts, cells) + "\n"
  {
    var v := LayoutOf(Meta(lines)).value;
    var out := Unreduce(kit, lines).value;
    forall i | |Meta(lines)| <= i < |out| ensures exists cells :: |cells| == |v.parts| && out[i] == Row(v.parts, cells) + "\n" {
      UnreduceRowAt(kit, lines, i);
    }
  }

  lemma UnreduceRowAt(kit: Toolkit, lines: seq<string>, i: nat)
    requires Unreduce(kit, lines).Ok?
    requires |Meta(lines)| <= i < |Unreduce(kit, lines).value|
    ensures exists cells :: |cells| == |LayoutOf(Meta(lines)).value.parts| &&
              Unreduce(kit, lines).value[i] == Row(LayoutOf(Meta(lines)).value.parts, cells) + "\n"
  {
    var v := LayoutOf(Meta(lines)).value;
    var meta, body := Meta(lines), Body(lines);
    var step := LineStep(kit, v);
    var rest := UnreduceLines(kit, v, body).value.0;
    assert Unreduce(kit, lines).value == meta + rest;
    UnreduceLinesEnd(kit, v, body);
    var k := i - |meta|;
    FoldLines(step, body, Unbound, k);
    var before := Fold(step, body[..k], Unbound).value.1;
    var line := UnreduceLine(kit, v, body[k], k == 0, before);
    assert step(body[k], k == 0, before) == line;
    assert Unreduce(kit, lines).value[i] == rest[k] == line.value.0;
    LineAsRow(kit, v, body[k], k == 0, before);
    var cells :| |cells| == |v.parts| && line.value.0 == Row(v.parts, cells) + "\n";
  }

  /** On the first tune-body line nothing is carried yet: if none of its
      bars has a duration that parses and some declared voice is absent
      from it, `ref_dur` is unbound and `rest_unreduce` raises. */
  lemma FirstLineNeedsReference(kit: Toolkit, v: Layout, lines: seq<string>, k: nat)
    requires Covers(v) && |lines| > 0
    requires Durations(kit, BarDict(LineMatches(lines[0]))) == []
    requires k < |v.parts| && LastBar(LineMatches(lines[0]), v.parts[k]).None?
    ensures UnreduceLines(kit, v, lines) == Err(NoReferenceDuration)
  {
    var step := LineStep(kit, v);
    var l0 := lines[0];
    UnreduceLineRaises(kit, v, l0, true, Unbound, k);
    assert lines[..1] == [l0] && [l0][..0] == [];
    assert Fold(step, lines[..1], Unbound) == Err(NoReferenceDuration);
    FoldStops(step, lines, Unbound, 1);
  }

  /** A step that never fails with `e` gives a loop that never does. */
  lemma {:induction false} FoldAvoids(step: (string, bool, Carry) -> Result<(string, Carry), UnreduceError>, lines: seq<string>, carry: Carry, e: UnreduceError)
    requires forall line, first, c :: step(line, first, c) != Err(e)
    ensures Fold(step, lines, carry) != Err(e)
  {
    if lines != [] {
      FoldAvoids(step, lines[..|lines| - 1], carry, e);
    }
  }

  /** With every voice listed, the fall-through to a stale
      `symbol_bartext` (gradio/inference.py:119-124) never happens, so its
      error never surfaces. */
  lemma {:induction false} ExpandedNotStale(kit: Toolkit, v: Layout, d: seq<(string, string)>, syms: seq<string>, prefix: string, c: Carry)
    requires forall s :: s in syms ==> s in v.z || s in v.x
    ensures Expanded(kit, v, d, syms, prefix, c) != Err(NoBarText)
  {
    if syms != [] {
      var n := |syms| - 1;
      ExpandedNotStale(kit, v, d, syms[..n], prefix, c);
      if Expanded(kit, v, d, syms[..n], prefix, c).Ok? {
        assert syms[n] in syms;
        VoiceTextListed(kit, v, d, syms[n], prefix, c, Expanded(kit, v, d, syms[..n], prefix, c).value.1);
      }
    }
  }

  /** No rewritten line raises for an unbound `symbol_bartext` once every
      voice is listed. */
  lemma StepNotStale(kit: Toolkit, v: Layout)
    requires Covers(v)
    ensures forall line, first, c :: LineStep(kit, v)(line, first, c) != Err(NoBarText)
  {
    forall line, first, c ensures UnreduceLine(kit, v, line, first, c) != Err(NoBarText) {
      var d := BarDict(LineMatches(line));
      ExpandedNotStale(kit, v, d, v.parts, Prefix(line, first), LineCarry(kit, d, c));
    }
  }

  /** `rest_unreduce` never raises for an unbound `symbol_bartext`. */
  lemma NeverStale(kit: Toolkit, lines: seq<string>)
    ensures Unreduce(kit, lines) != Err(NoBarText)
  {
    var layout := LayoutOf(Meta(lines));
    if layout.Ok? {
      StepNotStale(kit, layout.value);
      FoldAvoids(LineStep(kit, layout.value), Body(lines), Unbound, NoBarText);
    }
  }

  /** The carry after a line: a line on which no bar parses keeps the
      previous line's reference duration, otherwise it is the line's most
      frequent parsed duration (the first of those tied); the barline is
      that of the line's last bar, or the previous one when the line has
      no bar. */
  lemma CarryForward(kit: Toolkit, d: seq<(string, string)>, carry: Carry)
    ensures var durs := Durations(kit, d);
            var c := LineCarry(kit, d, carry);
            && (durs == [] ==> c.ref == carry.ref)
            && (durs != [] ==>
                  && c.ref.Some? && c.ref.value in durs
                  && (forall x :: x in durs ==> multiset(durs)[x] <= multiset(durs)[c.ref.value])
                  && (forall x :: x in durs && multiset(durs)[x] == multiset(durs)[c.ref.value] ==>
                        Position(durs, c.ref.value) <= Position(durs, x)))
            && (d == [] ==> c.barline == carry.barline)
            && (d != [] ==> c.barline == Some(kit.rightBarline(d[|d| - 1].1)))
  {
    RefDurationIsMajority(Durations(kit, d));
  }

  // ---------------------------------------------------------------------
  // The loops

  /** The voice loop of gradio/inference.py:117-127. */
  method ExpandLine(kit: Toolkit, v: Layout, d: seq<(string, string)>, prefix: string, c: Carry)
    returns (r: Result<(string, Option<string>), UnreduceError>)
    ensures r == Expanded(kit, v, d, v.parts, prefix, c)
  {
    var line := "";
    var bartext := c.bartext;
    var i := 0;
    while i < |v.parts|
      invariant 0 <= i <= |v.parts|
      invariant Expanded(kit, v, d, v.parts[..i], prefix, c) == Ok((line, bartext))
    {
      var symbol := v.parts[i];
      assert v.parts[..i + 1][..i] == v.parts[..i];
      var cell := VoiceCell(kit, v, d, symbol, prefix, c.(bartext := bartext));
      if cell.Err? {
        ExpandedStops(kit, v, d, v.parts, prefix, c, i + 1);
        return Err(cell.error);
      }
      bartext := Some(cell.value);
      line := line + "[" + symbol + "]" + cell.value;
      i := i + 1;
    }
    assert v.parts[..i] == v.parts;
    r := Ok((line, bartext));
  }

  /** One iteration of the tune-body loop (gradio/inference.py:78-129). */
  method UnreduceOneLine(kit: Toolkit, v: Layout, line: string, first: bool, carry: Carry)
    returns (r: Result<(string, Carry), UnreduceError>)
    ensures r == UnreduceLine(kit, v, line, first, carry)
  {
    var body := StripRefTag(line);
    var ms := VoiceMatches(body);
    var d := CollectBars(ms);
    var tally, barline := VoteDurations(kit, d, carry.barline);
    var ref := carry.ref;
    if tally != [] {
      ref := Some(tally[MaxIndex(tally)].0);
    }
    var prefix := "";
    if first {
      prefix := BeforeFirst(body, "[V:");
    }
    var c := Carry(ref, barline, carry.bartext);
    var out := ExpandLine(kit, v, d, prefix, c);
    if out.Err? {
      return Err(out.error);
    }
    r := Ok((out.value.0 + "\n", c.(bartext := out.value.1)));
  }

  /** One line of the tune-body loop, seen from the loop: the lines so far
      extend by the new one, or the whole loop raises its error. */
  method UnreduceNext(kit: Toolkit, v: Layout, lines: seq<string>, i: nat, out: seq<string>, carry: Carry)
    returns (lc: Result<(string, Carry), UnreduceError>)
    requires i < |lines| && Fold(LineStep(kit, v), lines[..i], Unbound) == Ok((out, carry))
    ensures lc.Ok? ==> Fold(LineStep(kit, v), lines[..i + 1], Unbound) == Ok((out + [lc.value.0], lc.value.1))
    ensures lc.Err? ==> UnreduceLines(kit, v, lines) == Err(lc.error)
  {
    lc := UnreduceOneLine(kit, v, lines[i], i == 0, carry);
    FoldNext(LineStep(kit, v), lines, Unbound, i, out, carry, lc);
  }

  /** The tune-body loop of gradio/inference.py:78-129. */
  method UnreduceBody(kit: Toolkit, v: Layout, lines: seq<string>) returns (r: Result<seq<string>, UnreduceError>)
    ensures r == (match UnreduceLines(kit, v, lines)
                  case Ok(oc) => Ok(oc.0)
                  case Err(e) => Err(e))
  {
    var out: seq<string> := [];
    var carry := Unbound;
    var i := 0;
    while i < |lines|
      invariant 0 <= i <= |lines|
      invariant Fold(LineStep(kit, v), lines[..i], Unbound) == Ok((out, carry))
    {
      var lc := UnreduceNext(kit, v, lines, i, out, carry);
      if lc.Err? {
        return Err(lc.error);
      }
      out := out + [lc.value.0];
      carry := lc.value.1;
      i := i + 1;
    }
    assert lines[..i] == lines;
    r := Ok(out);
  }

  /** `rest_unreduce` as the Python function runs it. */
  method RestUnreduce(kit: Toolkit, lines: seq<string>) returns (r: Result<seq<string>, UnreduceError>)
    ensures r == Unreduce(kit, lines)
  {
    var index := FindFirst(lines, HasVoiceTag);
    var meta := lines;
    var body := lines;
    if index.Some? {
      meta := lines[..index.value];
      body := lines[index.value..];
    }
    var g := GroupVoices(meta);
    if g.Err? {
      return Err(g.error);
    }
    var zx := BuildSymbolLists(g.value.groups);
    if zx.Err? {
      return Err(zx.error);
    }
    var sorted := SortVoices(g.value.parts);
    if sorted.Err? {
      return Err(sorted.error);
    }
    var out := UnreduceBody(kit, Layout(sorted.value, zx.value.0, zx.value.1), body);
    if out.Err? {
      return Err(out.error);
    }
    r := Ok(meta + out.value);
  }
}
