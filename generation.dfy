/** One attempt of the generation loop of `inference_patch` and
    `inference_completetion` (gradio/inference.py:133-381): patches are drawn
    from the predictor until it signals the end, the text grows by each
    decoded patch, the context is masked and appended, and once the context
    is full it is rebuilt from the metadata and the latest tune-body lines.
    The text is then unreduced and assembled into the returned ABC tune. */
module Generation {
  import opened Wrappers
  import opened Text
  import opened Patches
  import opened Bars
  import Voices
  import Unreduce

  /** The character cap of gradio/inference.py:197. */
  const MaxOutputChars := 102400

  /** `inference_patch` generates from the prompt alone; `inference_completetion`
      continues a given opening. */
  datatype Mode = Fresh | Completion(start: string)

  /** The patch codec: `decode([patch])`, `encode_generate` and
      `patchilize_metadata`, which live outside this model. */
  datatype Codec = Codec(decode: seq<int> -> string,
                         encodeGenerate: string -> seq<seq<int>>,
                         patchilizeMetadata: seq<string> -> seq<string>)

  /** Everything an attempt depends on but does not change. The predictor
      samples, so its answer is a function of the context and of how many
      patches were drawn before. */
  datatype Env = Env(config: Config, codec: Codec, predict: (nat, seq<int>) -> seq<int>, mode: Mode)

  /** The loop variables: `byte_list` (as a string), `input_patches` (as
      the flat row torch holds), `tunebody_flag`, `cut_index`, and the
      number of patches drawn so far. */
  datatype State = State(bytes: string, context: seq<int>, inBody: bool, cut: Option<nat>, draws: nat)

  /** How an iteration of the inner loop ends: it goes on, it breaks at the
      end patch, it breaks because no window could be cut, it fails (the
      cap), or it raises (an index error on a patch too short to test). */
  datatype Status = Running | Ended | Stopped | Failed | Crashed

  // ---------------------------------------------------------------------
  // Start of an attempt

  /** `prompt_lines` */
  function PromptLines(period: string, composer: string, instrumentation: string): (r: seq<string>)
    ensures |r| == 3
    ensures forall i :: 0 <= i < 3 ==> StartsWith(r[i], "%") && EndsWith(r[i], "\n")
  {
    ["%" + period + "\n", "%" + composer + "\n", "%" + instrumentation + "\n"]
  }

  /** Padding of the encoded opening of a completion (gradio/inference.py:283-284). */
  function PadRows(c: Config, ps: seq<seq<int>>): (r: seq<seq<int>>)
    ensures |r| == |ps|
    ensures forall i :: 0 <= i < |ps| ==> r[i] == Pad(c, ps[i])
  {
    seq(|ps|, i requires 0 <= i < |ps| => Pad(c, ps[i]))
  }

  /** The rows of the first context: the start patch and the padded
      metadata chunks, then, in a completion, the padded patches of the
      stripped opening. */
  function StartRows(env: Env, lines: seq<string>): seq<seq<int>>
    requires env.config.patchSize >= 1
  {
    var rows := PromptRows(env.config, env.codec.patchilizeMetadata(lines));
    match env.mode
    case Fresh => rows
    case Completion(start) => rows + PadRows(env.config, env.codec.encodeGenerate(Strip(start)))
  }

  /** The state before the first iteration, or `None` where torch refuses
      a ragged list of rows. The text holds only the prompt lines, also in
      a completion, and `tunebody_flag` starts set in a completion. */
  function Start(env: Env, lines: seq<string>): Option<State>
    requires env.config.patchSize >= 1
  {
    match Tensor(StartRows(env, lines))
    case None => None
    case Some(context) => Some(State(Concat(lines), context, env.mode.Completion?, None, 0))
  }

  /** Padded rows line up with a first row of the patch width exactly when
      none of them is wider than the patch. */
  lemma PaddedRectangular(c: Config, rows: seq<seq<int>>, ps: seq<seq<int>>)
    requires rows != [] && |rows[0]| == c.patchSize
    ensures Rectangular(rows + PadRows(c, ps)) <==>
              Rectangular(rows) && forall i :: 0 <= i < |ps| ==> |ps[i]| <= c.patchSize
  {
    var all := rows + PadRows(c, ps);
    if Rectangular(all) {
      forall i | 0 <= i < |ps| ensures |ps[i]| <= c.patchSize {
        assert all[|rows| + i] == Pad(c, ps[i]);
      }
      forall i | 0 <= i < |rows| ensures |rows[i]| == |rows[0]| {
        assert rows[i] == all[i];
      }
    }
  }

  /** An attempt starts exactly when every metadata chunk and, in a
      completion, every patch of the opening fits the patch width. */
  lemma StartFits(env: Env, lines: seq<string>)
    requires env.config.patchSize >= 1
    ensures var chunks := env.codec.patchilizeMetadata(lines);
            Start(env, lines).Some? <==>
              && (forall i :: 0 <= i < |chunks| ==> |chunks[i]| <= env.config.patchSize)
              && (env.mode.Completion? ==>
                    var ps := env.codec.encodeGenerate(Strip(env.mode.start));
                    forall i :: 0 <= i < |ps| ==> |ps[i]| <= env.config.patchSize)
  {
    var rows := PromptRows(env.config, env.codec.patchilizeMetadata(lines));
    if env.mode.Completion? {
      PaddedRectangular(env.config, rows, env.codec.encodeGenerate(Strip(env.mode.start)));
    }
  }

  /** A started attempt holds whole rows, the start patch first, has the
      prompt as its text, no cut fixed and nothing drawn, and has the tune
      body open only in a completion. */
  lemma StartState(env: Env, lines: seq<string>)
    requires env.config.patchSize >= 1
    ensures Start(env, lines).Some? ==>
              var s := Start(env, lines).value;
              && s.context[..env.config.patchSize] == Sentinel(env.config)
              && |s.context| == |StartRows(env, lines)| * env.config.patchSize
              && s.bytes == Concat(lines)
              && s.inBody == env.mode.Completion?
              && s.cut == None && s.draws == 0
  {
    var all := StartRows(env, lines);
    if Start(env, lines).Some? {
      assert all[0] == Sentinel(env.config);
      FlattenRectangular(all, env.config.patchSize);
      assert Flatten(all) == all[0] + Flatten(all[1..]);
    }
  }

  // ---------------------------------------------------------------------
  // One iteration

  /** The forced opening (gradio/inference.py:169): before the tune body
      has opened, a first patch decoding to `[r:...` is thrown away and the
      predictor is asked again after `[r:0/`. */
  predicate Reasks(env: Env, s: State) {
    !s.inBody && StartsWith(env.codec.decode(env.predict(s.draws, s.context)), "[r:")
  }

  /** `predicted_patch` as the iteration goes on with it. */
  function Draw(env: Env, s: State): seq<int>
  {
    if Reasks(env, s) then R0() + env.predict(s.draws + 1, s.context + R0())
    else env.predict(s.draws, s.context)
  }

  /** The end test of gradio/inference.py:178 as Python evaluates it, left
      to right: `None` where it indexes past the end of the patch. */
  function EndTest(c: Config, p: seq<int>): (r: Option<bool>)
  {
    if |p| == 0 then None
    else if p[0] != c.bos then Some(false)
    else if |p| == 1 then None
    else Some(p[1] == c.eos)
  }

  /** `tunebody_lines[-n:]`, which is the whole list for `n == 0` and for
      `n` past its length. */
  function PyTail<T>(xs: seq<T>, n: nat): seq<T>
  {
    if n == 0 || n >= |xs| then xs else xs[|xs| - n..]
  }

  /** A slice keeps the last `n` elements, or all when `n` is 0 or too large. */
  lemma PyTailSpec<T>(xs: seq<T>, n: nat)
    ensures |PyTail(xs, n)| == if 0 < n < |xs| then n else |xs|
    ensures xs == xs[..|xs| - |PyTail(xs, n)|] + PyTail(xs, n)
  {
  }

  predicate IsTuneLine(line: string) {
    StartsWith(line, "[r:") || StartsWith(line, "[V:")
  }

  /** `[line + '\n' for line in ls]` */
  function WithNewlines(ls: seq<string>): (r: seq<string>)
    ensures |r| == |ls|
    ensures forall i :: 0 <= i < |ls| ==> r[i] == ls[i] + "\n"
  {
    seq(|ls|, i requires 0 <= i < |ls| => ls[i] + "\n")
  }

  /** The tune-body lines with their newlines back
      (gradio/inference.py:220-225): the last one gets none unless the
      text ended in a newline. */
  function TunePart(tb: seq<string>, endsInNewline: bool): seq<string>
    requires |tb| >= 1
  {
    if endsInNewline then WithNewlines(tb)
    else WithNewlines(tb[..|tb| - 1]) + [tb[|tb| - 1]]
  }

  /** The rebuild of gradio/inference.py:206-231 up to the re-encoding: the
      text to encode and the cut now in force, or `None` when there is no
      tune-body line or only the last piece is one. */
  function Window(text: string, cut: Option<nat>): Option<(string, nat)>
  {
    var lines := Lines(text);
    match FirstWhere(lines, IsTuneLine)
    case None => None
    case Some(i) =>
      if i == |lines| - 1 then None
      else
        var tb := TunePart(lines[i..], EndsWith(text, "\n"));
        var k := if cut.Some? then cut.value else |tb| / 2;
        Some((Concat(WithNewlines(lines[..i]) + PyTail(tb, k)), k))
  }

  /** The iteration of gradio/inference.py:164-235, as a function of the
      state before it. */
  function StepSpec(env: Env, s: State): (Status, State)
  {
    var drawn := s.(inBody := s.inBody || Reasks(env, s), draws := s.draws + if Reasks(env, s) then 2 else 1);
    var p := Draw(env, s);
    match EndTest(env.config, p)
    case None => (Crashed, drawn)
    case Some(true) => (Ended, drawn)
    case Some(false) =>
      var grown := drawn.(bytes := s.bytes + env.codec.decode(p), context := s.context + Masked(env.config, p));
      if env.mode.Fresh? && |grown.bytes| > MaxOutputChars then (Failed, grown)
      else if |grown.context| >= env.config.patchLength * env.config.patchSize then
        match Window(grown.bytes, s.cut)
        case None => (Stopped, grown)
        case Some(w) => (Running, grown.(context := Flatten(env.codec.encodeGenerate(w.0)), cut := Some(w.1)))
      else (Running, grown)
  }

  /** The inner `while True`, with a bound on the number of iterations;
      `Running` at the end means the bound was reached. */
  function RunSpec(env: Env, s: State, fuel: nat): (Status, State)
    decreases fuel
  {
    if fuel == 0 then (Running, s)
    else
      var next := StepSpec(env, s);
      if next.0 == Running then RunSpec(env, next.1, fuel - 1) else next
  }

  // ---------------------------------------------------------------------
  // Properties of an iteration

  /** The end test passes exactly on a patch whose first two codes are bos
      and eos, and it raises only on a patch it cannot index. */
  lemma EndTestSpec(c: Config, p: seq<int>)
    ensures EndTest(c, p) == Some(true) <==> |p| >= 2 && IsEnd(c, p)
    ensures EndTest(c, p).None? <==> |p| == 0 || (|p| == 1 && p[0] == c.bos)
  {
  }

  /** A re-ask happens only before the tune body opens and opens it; it
      costs a second draw, and the patch then starts with `[r:0/` and
      cannot raise. */
  lemma StepReask(env: Env, s: State)
    ensures var (st, s') := StepSpec(env, s);
            && (s.inBody ==> s'.inBody)
            && (s'.inBody && !s.inBody <==> Reasks(env, s))
            && s'.draws == s.draws + (if s'.inBody && !s.inBody then 2 else 1)
            && (Reasks(env, s) ==> Draw(env, s)[..5] == R0() && st != Crashed)
  {
    if Reasks(env, s) {
      assert Draw(env, s)[..5] == R0();
    }
  }

  /** Ending leaves text and context as they were; any other iteration
      that does not raise appends the decoded patch to the text, and, when
      it keeps the context, appends the patch masked after its first eos. */
  lemma StepGrows(env: Env, s: State)
    ensures var (st, s') := StepSpec(env, s);
            var p := Draw(env, s);
            && (st == Ended <==> |p| >= 2 && IsEnd(env.config, p))
            && (st == Crashed <==> |p| == 0 || (|p| == 1 && p[0] == env.config.bos))
            && (st == Ended || st == Crashed ==> s'.bytes == s.bytes && s'.context == s.context && s'.cut == s.cut)
            && (st != Ended && st != Crashed ==> s'.bytes == s.bytes + env.codec.decode(p))
            && (st != Ended && st != Crashed && s'.cut == s.cut && st != Running ==>
                  s'.context == s.context + match IndexOf(p, env.config.eos)
                                           case None => p
                                           case Some(k) => p[..k + 1] + Repeat(env.config.special, |p| - k - 1))
  {
    EndTestSpec(env.config, Draw(env, s));
    MaskedShape(env.config, Draw(env, s));
  }

  /** In a fresh attempt an iteration fails exactly when the text passes
      102400 characters, and one that goes on or stops leaves the text
      within the cap; a completion never fails. */
  lemma StepCap(env: Env, s: State)
    ensures var (st, s') := StepSpec(env, s);
            && (env.mode.Fresh? ==> (st == Failed <==> st != Ended && st != Crashed && |s'.bytes| > MaxOutputChars))
            && (env.mode.Fresh? && (st == Running || st == Stopped) ==> |s'.bytes| <= MaxOutputChars)
            && (env.mode.Completion? ==> st != Failed)
  {
  }

  /** A rebuild happens only once the context is full; it fixes a cut of at
      least one line when none is fixed yet (its value is the one
      `WindowCut` states), and keeps a fixed cut forever. */
  lemma StepCut(env: Env, s: State)
    ensures var (st, s') := StepSpec(env, s);
            && (s.cut.Some? ==> s'.cut == s.cut)
            && (s.cut.None? && s'.cut.Some? ==> s'.cut.value >= 1 && st == Running)
            && (s'.cut != s.cut ==> |s.context + Masked(env.config, Draw(env, s))| >= env.config.patchLength * env.config.patchSize)
  {
    var st := StepSpec(env, s);
    var p := Draw(env, s);
    if EndTest(env.config, p) == Some(false) {
      var bytes := s.bytes + env.codec.decode(p);
      WindowCut(bytes, s.cut);
    }
  }

  /** The cut a rebuild uses: the fixed one, or else half the pieces from
      the first tune-body line on, which is at least one line. */
  lemma WindowCut(text: string, cut: Option<nat>)
    ensures Window(text, cut).Some? ==> var k := Window(text, cut).value.1;
              && (cut.Some? ==> k == cut.value)
              && (cut.None? ==> k == (|Lines(text)| - FirstWhere(Lines(text), IsTuneLine).value) / 2)
              && (cut.None? ==> k >= 1)
  {
    var lines := Lines(text);
    match FirstWhere(lines, IsTuneLine)
    case None =>
    case Some(i) =>
      if i < |lines| - 1 {
        var tb := TunePart(lines[i..], EndsWith(text, "\n"));
        assert |tb| >= 2;
      }
  }

  /** The window exists exactly when some piece of the text starts a tune
      body and that piece is not the last one. */
  lemma WindowExists(text: string, cut: Option<nat>)
    ensures Window(text, cut).Some? <==>
              exists i :: 0 <= i < |Lines(text)| - 1 && IsTuneLine(Lines(text)[i])
  {
    var lines := Lines(text);
    match FirstWhere(lines, IsTuneLine)
    case None =>
    case Some(i) =>
      if i < |lines| - 1 {
        assert 0 <= i < |Lines(text)| - 1 && IsTuneLine(Lines(text)[i]);
      } else {
        forall j | 0 <= j < |lines| - 1 ensures !IsTuneLine(lines[j]) {
          assert j < i;
        }
      }
  }

  // ---------------------------------------------------------------------
  // What a rebuild keeps

  /** Pieces joined by newlines, each but the last followed by one. */
  lemma {:induction false} ReattachJoin(ls: seq<string>)
    requires |ls| >= 1
    ensures Concat(WithNewlines(ls[..|ls| - 1]) + [ls[|ls| - 1]]) == JoinLines(ls)
  {
    var n := |ls| - 1;
    if n > 0 {
      var rest := ls[1..];
      ReattachJoin(rest);
      var xs := WithNewlines(ls[..n]) + [ls[n]];
      assert xs[0] == ls[0] + "\n";
      assert xs[1..] == WithNewlines(rest[..|rest| - 1]) + [rest[|rest| - 1]];
      assert Concat(xs) == ls[0] + "\n" + JoinLines(rest);
    }
  }

  function Extra(endsInNewline: bool): string {
    if endsInNewline then "\n" else ""
  }

  /** `WithNewlines` distributes over splitting a list. */
  lemma WithNewlinesSplit(a: seq<string>, b: seq<string>)
    ensures WithNewlines(a + b) == WithNewlines(a) + WithNewlines(b)
  {
    var l := WithNewlines(a + b);
    var r := WithNewlines(a) + WithNewlines(b);
    forall j | 0 <= j < |l| ensures l[j] == r[j] {
      if j < |a| {
        assert (a + b)[j] == a[j];
      } else {
        assert (a + b)[j] == b[j - |a|];
      }
    }
  }

  /** Re-attaching the newlines to pieces split off at `i` gives what
      re-attaching them to the whole list gives, with one more newline when
      every piece gets one. */
  lemma ReattachAt(ls: seq<string>, i: nat, endsInNewline: bool)
    requires i < |ls|
    ensures var n := |ls| - 1;
            Concat(WithNewlines(ls[..i]) + TunePart(ls[i..], endsInNewline)) == Concat(WithNewlines(ls[..n]) + [ls[n]]) + Extra(endsInNewline)
  {
    var n := |ls| - 1;
    var front := WithNewlines(ls[..n]);
    var last := ls[n];
    ConcatAppend(front, [last]);
    assert Concat([last]) == last;
    if endsInNewline {
      TunePartNewline(ls, i);
      ConcatAppend(front, [last + "\n"]);
      assert Concat([last + "\n"]) == last + "\n";
    } else {
      TunePartPlain(ls, i);
    }
  }

  /** With a final newline every tune-body line gets its newline back. */
  lemma TunePartNewline(ls: seq<string>, i: nat)
    requires i < |ls|
    ensures WithNewlines(ls[..i]) + TunePart(ls[i..], true) == WithNewlines(ls[..|ls| - 1]) + [ls[|ls| - 1] + "\n"]
  {
    var n := |ls| - 1;
    assert ls[..i] + ls[i..] == ls;
    WithNewlinesSplit(ls[..i], ls[i..]);
    assert TunePart(ls[i..], true) == WithNewlines(ls[i..]);
    assert ls[..n] + [ls[n]] == ls;
    WithNewlinesSplit(ls[..n], [ls[n]]);
    assert WithNewlines([ls[n]]) == [ls[n] + "\n"];
  }

  /** Without one, the last line stays bare. */
  lemma TunePartPlain(ls: seq<string>, i: nat)
    requires i < |ls|
    ensures WithNewlines(ls[..i]) + TunePart(ls[i..], false) == WithNewlines(ls[..|ls| - 1]) + [ls[|ls| - 1]]
  {
    var n := |ls| - 1;
    var tb := ls[i..];
    var head, mid := ls[..i], ls[i..n];
    assert tb[..|tb| - 1] == mid && tb[|tb| - 1] == ls[n];
    assert ls[..n] == head + mid;
    WithNewlinesSplit(head, mid);
    calc {
      WithNewlines(head) + TunePart(tb, false);
      WithNewlines(head) + (WithNewlines(mid) + [ls[n]]);
      (WithNewlines(head) + WithNewlines(mid)) + [ls[n]];
      WithNewlines(ls[..n]) + [ls[n]];
    }
  }

  /** Re-attaching the newlines to pieces split off at `i` joins them back,
      with one more newline when every piece gets one. */
  lemma Reattach(ls: seq<string>, i: nat, endsInNewline: bool)
    requires i < |ls|
    ensures Concat(WithNewlines(ls[..i]) + TunePart(ls[i..], endsInNewline)) == JoinLines(ls) + Extra(endsInNewline)
  {
    ReattachAt(ls, i, endsInNewline);
    ReattachJoin(ls);
  }

  /** Cutting a joined list after its head and keeping a tail of the rest:
      the head starts the whole, the tail ends it. */
  lemma HeadAndTail(meta: seq<string>, tb: seq<string>, tail: seq<string>, whole: string, extra: string)
    requires tb != [] && |extra| <= |tb[0]|
    requires |tail| <= |tb| && tb == tb[..|tb| - |tail|] + tail
    requires Concat(meta + tb) == whole + extra
    ensures StartsWith(whole, Concat(meta))
    ensures EndsWith(whole + extra, Concat(tail))
    ensures Concat(meta + tail) == Concat(meta) + Concat(tail)
  {
    var dropped := tb[..|tb| - |tail|];
    ConcatAppend(meta, tb);
    ConcatAppend(meta, tail);
    ConcatAppend(dropped, tail);
    assert Concat(tb) == tb[0] + Concat(tb[1..]);
    SplitEnds(Concat(meta), Concat(dropped), Concat(tail), whole, extra);
  }

  /** A text `m + (d + t)` cut into `whole + extra`, with `extra` no longer
      than `d + t`, keeps `m` at the front of `whole` and `t` at the end. */
  lemma SplitEnds(m: string, d: string, t: string, whole: string, extra: string)
    requires m + (d + t) == whole + extra && |extra| <= |d + t|
    ensures StartsWith(whole, m) && EndsWith(whole + extra, t)
  {
    var all := whole + extra;
    assert whole[..|m|] == all[..|m|] == m;
    assert all[|all| - |t|..] == t;
  }

  /** A rebuild keeps the text's metadata lines, none of which starts a
      tune body, followed by whole tune-body lines from the end of the text
      (the last `cut` of them, or all). */
  lemma WindowKeeps(text: string, cut: Option<nat>)
    requires Window(text, cut).Some?
    ensures var lines := Lines(text);
            var i := FirstWhere(lines, IsTuneLine).value;
            var head := Concat(WithNewlines(lines[..i]));
            var tail := Concat(PyTail(TunePart(lines[i..], EndsWith(text, "\n")), Window(text, cut).value.1));
            && (forall j :: 0 <= j < i ==> !IsTuneLine(lines[j]))
            && StartsWith(text, head)
            && EndsWith(text + Extra(EndsWith(text, "\n")), tail)
            && Window(text, cut).value.0 == head + tail
  {
    var lines := Lines(text);
    var i := FirstWhere(lines, IsTuneLine).value;
    var k := Window(text, cut).value.1;
    var nl := EndsWith(text, "\n");
    var meta := WithNewlines(lines[..i]);
    var tb := TunePart(lines[i..], nl);
    var tail := PyTail(tb, k);
    JoinLinesOfLines(text);
    Reattach(lines, i, nl);
    PyTailSpec(tb, k);
    assert |tb[0]| >= |Extra(nl)|;
    HeadAndTail(meta, tb, tail, text, Extra(nl));
  }

  // ---------------------------------------------------------------------
  // Properties of a whole attempt

  /** Over any number of iterations the forced `[r:0/` re-ask costs at
      most one extra draw, and only in an attempt that started unopened. */
  lemma {:induction false} RunReasksAtMostOnce(env: Env, s: State, fuel: nat) returns (steps: nat)
    ensures var s' := RunSpec(env, s, fuel).1;
            && steps <= fuel
            && (s.inBody ==> s'.inBody)
            && s'.draws == s.draws + steps + (if s'.inBody && !s.inBody then 1 else 0)
    decreases fuel
  {
    if fuel == 0 {
      steps := 0;
    } else {
      var next := StepSpec(env, s);
      StepReask(env, s);
      if next.0 == Running {
        var more := RunReasksAtMostOnce(env, next.1, fuel - 1);
        steps := more + 1;
      } else {
        steps := 1;
      }
    }
  }

  /** Once fixed, the cut stays; the first one fixed is at least one. */
  lemma {:induction false} RunCut(env: Env, s: State, fuel: nat)
    ensures var s' := RunSpec(env, s, fuel).1;
            && (s.cut.Some? ==> s'.cut == s.cut)
            && (s.cut.None? && s'.cut.Some? ==> s'.cut.value >= 1)
    decreases fuel
  {
    if fuel > 0 {
      var next := StepSpec(env, s);
      StepCut(env, s);
      if next.0 == Running {
        RunCut(env, next.1, fuel - 1);
      }
    }
  }

  /** An iteration that ends appends nothing to the text. */
  lemma StepEndKeepsText(env: Env, s: State)
    ensures StepSpec(env, s).0 == Ended ==> StepSpec(env, s).1.bytes == s.bytes
  {
  }

  /** One fresh iteration keeps a running or stopped text within the cap
      and leaves an ended one as it was. */
  lemma StepWithinCap(env: Env, s: State)
    requires env.mode.Fresh?
    ensures var next := StepSpec(env, s);
            && (next.0 == Running || next.0 == Stopped ==> |next.1.bytes| <= MaxOutputChars)
            && (next.0 == Ended ==> next.1.bytes == s.bytes)
  {
    StepCap(env, s);
    StepEndKeepsText(env, s);
  }

  /** A fresh attempt that ends or stops has a text within the cap, unless
      it ended on its very first patch. */
  lemma {:induction false} RunCap(env: Env, s: State, fuel: nat)
    requires env.mode.Fresh?
    ensures var (st, s') := RunSpec(env, s, fuel);
            st == Ended || st == Stopped || st == Running ==> |s'.bytes| <= MaxOutputChars || s'.bytes == s.bytes
    decreases fuel
  {
    if fuel > 0 {
      var next := StepSpec(env, s);
      StepWithinCap(env, s);
      if next.0 == Running {
        RunCap(env, next.1, fuel - 1);
        assert RunSpec(env, s, fuel) == RunSpec(env, next.1, fuel - 1);
      } else {
        assert RunSpec(env, s, fuel) == next;
      }
    }
  }

  // ---------------------------------------------------------------------
  // The returned text

  /** `[line + '\n' for line in filter(None, lines)]` */
  function NonEmptyLines(lines: seq<string>): seq<string>
  {
    if lines == [] then []
    else (if lines[0] == "" then [] else [lines[0] + "\n"]) + NonEmptyLines(lines[1..])
  }

  /** A comment line the output drops: one `%`, not the `%%` of a directive. */
  predicate IsComment(line: string) {
    StartsWith(line, "%") && !StartsWith(line, "%%")
  }

  function DropComments(lines: seq<string>): seq<string>
  {
    if lines == [] then []
    else (if IsComment(lines[0]) then [] else [lines[0]]) + DropComments(lines[1..])
  }

  /** The assembly of gradio/inference.py:237-253: `Err` where
      `rest_unreduce` raises and the attempt is retried. */
  function FinalText(kit: Toolkit, text: string): Result<string, Voices.UnreduceError>
  {
    var u :- Unreduce.Unreduce(kit, NonEmptyLines(Lines(text)));
    Ok(Concat(["X:1\n"] + DropComments(u)))
  }

  /** No comment line is left, and every other line is. */
  lemma {:induction false} DropCommentsSpec(lines: seq<string>)
    ensures forall x :: x in DropComments(lines) <==> x in lines && !IsComment(x)
  {
    if lines != [] {
      DropCommentsSpec(lines[1..]);
      assert lines == [lines[0]] + lines[1..];
    }
  }

  /** The filter works line by line: filtering a concatenation is
      concatenating the filtered parts, so kept lines keep their order. */
  lemma {:induction false} DropCommentsAppend(a: seq<string>, b: seq<string>)
    ensures DropComments(a + b) == DropComments(a) + DropComments(b)
  {
    if a == [] {
      assert a + b == b;
    } else {
      assert (a + b)[0] == a[0] && (a + b)[1..] == a[1..] + b;
      DropCommentsAppend(a[1..], b);
    }
  }

  /** Each kept line is kept as often as it occurs; a comment line never. */
  lemma {:induction false} DropCommentsCount(lines: seq<string>, x: string)
    ensures multiset(DropComments(lines))[x] == if IsComment(x) then 0 else multiset(lines)[x]
  {
    if lines != [] {
      DropCommentsCount(lines[1..], x);
      assert lines == [lines[0]] + lines[1..];
    }
  }

  /** A list without comment lines passes unchanged. */
  lemma {:induction false} DropCommentsNone(lines: seq<string>)
    requires forall i :: 0 <= i < |lines| ==> !IsComment(lines[i])
    ensures DropComments(lines) == lines
  {
    if lines != [] {
      forall i | 0 <= i < |lines[1..]| ensures !IsComment(lines[1..][i]) {
        assert lines[1..][i] == lines[i + 1];
      }
      DropCommentsNone(lines[1..]);
    }
  }

  /** Dropping comment lines twice is dropping them once. */
  lemma DropCommentsIdempotent(lines: seq<string>)
    ensures DropComments(DropComments(lines)) == DropComments(lines)
  {
    var r := DropComments(lines);
    DropCommentsSpec(lines);
    assert forall i :: 0 <= i < |r| ==> !IsComment(r[i]) by {
      forall i | 0 <= i < |r| ensures !IsComment(r[i]) {
        assert r[i] in r;
      }
    }
    DropCommentsNone(r);
  }

  /** The non-empty pieces, without their newlines. */
  function Kept(lines: seq<string>): seq<string>
  {
    if lines == [] then []
    else (if lines[0] == "" then [] else [lines[0]]) + Kept(lines[1..])
  }

  /** `filter(None, ...)` keeps exactly the non-empty pieces, passes a
      list without empty pieces unchanged and ignores a trailing empty one. */
  lemma {:induction false} KeptSpec(lines: seq<string>)
    ensures forall x :: x in Kept(lines) <==> x in lines && x != ""
    ensures (forall i :: 0 <= i < |lines| ==> lines[i] != "") ==> Kept(lines) == lines
    ensures Kept(lines + [""]) == Kept(lines)
  {
    if lines == [] {
      assert Kept([""]) == [] + Kept([]);
    } else {
      KeptSpec(lines[1..]);
      assert lines == [lines[0]] + lines[1..];
      assert (lines + [""])[1..] == lines[1..] + [""];
      if forall i :: 0 <= i < |lines| ==> lines[i] != "" {
        assert forall i :: 0 <= i < |lines[1..]| ==> lines[1..][i] != "" by {
          forall i | 0 <= i < |lines[1..]| ensures lines[1..][i] != "" {
            assert lines[1..][i] == lines[i + 1];
          }
        }
      }
    }
  }

  /** The lines handed to `rest_unreduce` are the non-empty pieces, each
      with its newline back. */
  lemma {:induction false} NonEmptyLinesKept(lines: seq<string>)
    ensures NonEmptyLines(lines) == WithNewlines(Kept(lines))
  {
    if lines != [] {
      NonEmptyLinesKept(lines[1..]);
      var head := if lines[0] == "" then [] else [lines[0]];
      assert WithNewlines(head + Kept(lines[1..])) == WithNewlines(head) + WithNewlines(Kept(lines[1..]));
    }
  }

  /** Normalising is idempotent: the text assembled from normalised lines
      splits back into the same lines. */
  lemma NonEmptyLinesIdempotent(lines: seq<string>)
    requires forall i :: 0 <= i < |lines| ==> '\n' !in lines[i]
    ensures NonEmptyLines(Lines(Concat(NonEmptyLines(lines)))) == NonEmptyLines(lines)
  {
    SplitNormalised(lines);
    NormaliseKept(lines);
  }

  /** The assembled text splits into the kept lines and the empty piece
      after the last newline. */
  lemma SplitNormalised(lines: seq<string>)
    requires forall i :: 0 <= i < |lines| ==> '\n' !in lines[i]
    ensures Lines(Concat(NonEmptyLines(lines))) == Kept(lines) + [""]
  {
    var kept := Kept(lines);
    KeptSpec(lines);
    NonEmptyLinesKept(lines);
    ConcatWithNewlines(kept);
    var ls := kept + [""];
    assert Concat(NonEmptyLines(lines)) == JoinLines(ls);
    forall i | 0 <= i < |ls| ensures '\n' !in ls[i] {
      if i < |kept| {
        assert kept[i] in kept;
      }
    }
    LinesOfJoinLines(ls);
  }

  /** Normalising the kept lines, with a trailing empty piece, gives back
      the normalised lines. */
  lemma NormaliseKept(lines: seq<string>)
    ensures NonEmptyLines(Kept(lines) + [""]) == NonEmptyLines(lines)
  {
    var kept := Kept(lines);
    KeptSpec(lines);
    NonEmptyLinesKept(lines);
    NonEmptyLinesKept(kept + [""]);
    KeptSpec(kept);
    forall i | 0 <= i < |kept| ensures kept[i] != "" {
      assert kept[i] in kept;
    }
  }

  lemma {:induction false} ConcatWithNewlines(ls: seq<string>)
    ensures Concat(WithNewlines(ls)) == JoinLines(ls + [""])
  {
    if ls != [] {
      ConcatWithNewlines(ls[1..]);
      assert WithNewlines(ls)[1..] == WithNewlines(ls[1..]);
      assert (ls + [""])[1..] == ls[1..] + [""];
    }
  }

  /** The returned text is `X:1` and the unreduced lines without their
      comment lines; it exists exactly when unreduction succeeds. */
  lemma FinalTextSpec(kit: Toolkit, text: string)
    ensures var u := Unreduce.Unreduce(kit, NonEmptyLines(Lines(text)));
            && (FinalText(kit, text).Ok? <==> u.Ok?)
            && (u.Ok? ==>
                  && StartsWith(FinalText(kit, text).value, "X:1\n")
                  && FinalText(kit, text).value == "X:1\n" + Concat(DropComments(u.value))
                  && (forall x :: x in DropComments(u.value) <==> x in u.value && !IsComment(x)))
  {
    var u := Unreduce.Unreduce(kit, NonEmptyLines(Lines(text)));
    if u.Ok? {
      DropCommentsSpec(u.value);
      assert Concat(["X:1\n"] + DropComments(u.value)) == "X:1\n" + Concat(DropComments(u.value)) by {
        ConcatAppend(["X:1\n"], DropComments(u.value));
      }
    }
  }

  // ---------------------------------------------------------------------
  // The attempt as a whole

  /** What one turn of the outer `while True` comes to. */
  datatype AttemptResult = Returned(text: string) | Retry | Raised | Unfinished

  function AttemptSpec(env: Env, kit: Toolkit, period: string, composer: string, instrumentation: string, fuel: nat): AttemptResult
    requires env.config.patchSize >= 1
  {
    match Start(env, PromptLines(period, composer, instrumentation))
    case None => Raised
    case Some(s) =>
      var (st, s') := RunSpec(env, s, fuel);
      match st
      case Running => Unfinished
      case Crashed => Raised
      case Failed => Retry
      case _ =>
        match FinalText(kit, s'.bytes)
        case Ok(t) => Returned(t)
        case Err(_) => Retry
  }

  /** A returned tune comes from an attempt that ended or stopped without
      failing, starts with `X:1`, and, in a fresh attempt, was assembled
      from a text within the cap or from the prompt alone. */
  lemma AttemptReturns(env: Env, kit: Toolkit, period: string, composer: string, instrumentation: string, fuel: nat)
    requires env.config.patchSize >= 1
    ensures var lines := PromptLines(period, composer, instrumentation);
            var a := AttemptSpec(env, kit, period, composer, instrumentation, fuel);
            a.Returned? ==>
              var s := Start(env, lines).value;
              var (st, s') := RunSpec(env, s, fuel);
              && (st == Ended || st == Stopped)
              && FinalText(kit, s'.bytes) == Ok(a.text)
              && StartsWith(a.text, "X:1\n")
              && (env.mode.Fresh? ==> |s'.bytes| <= MaxOutputChars || s'.bytes == Concat(lines))
  {
    var lines := PromptLines(period, composer, instrumentation);
    if AttemptSpec(env, kit, period, composer, instrumentation, fuel).Returned? {
      var s := Start(env, lines).value;
      StartState(env, lines);
      var (st, s') := RunSpec(env, s, fuel);
      FinalTextSpec(kit, s'.bytes);
      if env.mode.Fresh? {
        RunCap(env, s, fuel);
      }
    }
  }

  // ---------------------------------------------------------------------
  // The loops

  /** The tune-body search and window cut of gradio/inference.py:206-228. */
  method RebuildWindow(text: string, cut: Option<nat>) returns (w: Option<(string, nat)>)
    ensures w == Window(text, cut)
  {
    var lines := Lines(text);
    var index := FindFirst(lines, IsTuneLine);
    if index.None? || index.value == |lines| - 1 {
      return None;
    }
    var i := index.value;
    var tb := TunePart(lines[i..], EndsWith(text, "\n"));
    var k: nat;
    if cut.None? {
      k := |tb| / 2;
    } else {
      k := cut.value;
    }
    w := Some((Concat(WithNewlines(lines[..i]) + PyTail(tb, k)), k));
  }

  /** The variables of one attempt's inner loop. */
  class Attempt {
    const env: Env
    var bytes: string
    var context: seq<int>
    var inBody: bool
    var cut: Option<nat>
    var draws: nat

    function Snapshot(): State
      reads this
    {
      State(bytes, context, inBody, cut, draws)
    }

    constructor(env: Env, s: State)
      ensures this.env == env && Snapshot() == s
    {
      this.env := env;
      bytes := s.bytes;
      context := s.context;
      inBody := s.inBody;
      cut := s.cut;
      draws := s.draws;
    }

    /** The draw of gradio/inference.py:165-177, with the forced `[r:0/`
        re-ask. */
    method DrawPatch() returns (p: seq<int>)
      modifies this
      ensures p == Draw(env, old(Snapshot()))
      ensures Snapshot() == old(Snapshot()).(inBody := old(inBody) || Reasks(env, old(Snapshot())),
                                              draws := old(draws) + if Reasks(env, old(Snapshot())) then 2 else 1)
    {
      p := env.predict(draws, context);
      draws := draws + 1;
      if !inBody && StartsWith(env.codec.decode(p), "[r:") {
        inBody := true;
        p := R0() + env.predict(draws, context + R0());
        draws := draws + 1;
      }
    }

    /** `for char in next_patch: byte_list.append(char)` */
    method AppendText(next: string)
      modifies this
      ensures Snapshot() == old(Snapshot()).(bytes := old(bytes) + next)
    {
      var k := 0;
      while k < |next|
        invariant 0 <= k <= |next|
        invariant Snapshot() == old(Snapshot()).(bytes := old(bytes) + next[..k])
      {
        bytes := bytes + [next[k]];
        k := k + 1;
        assert next[..k] == next[..k - 1] + [next[k - 1]];
      }
      assert next[..k] == next;
    }

    /** The masking loop of gradio/inference.py:187-192 on a fresh copy of
        the patch, then `torch.cat` onto the context. */
    method AppendMasked(p: seq<int>)
      modifies this
      ensures Snapshot() == old(Snapshot()).(context := old(context) + Masked(env.config, p))
    {
      var a := new int[|p|](i requires 0 <= i < |p| => p[i]);
      assert a[..] == p;
      MaskAfterFirstEos(env.config, a);
      context := context + a[..];
    }

    /** One iteration of gradio/inference.py:164-235. */
    method Step() returns (status: Status)
      modifies this
      ensures (status, Snapshot()) == StepSpec(env, old(Snapshot()))
    {
      ghost var s := Snapshot();
      var c := env.config;
      var p := DrawPatch();
      if |p| == 0 {
        return Crashed;
      }
      if p[0] == c.bos {
        if |p| == 1 {
          return Crashed;
        }
        if p[1] == c.eos {
          return Ended;
        }
      }
      assert EndTest(c, p) == Some(false);
      AppendText(env.codec.decode(p));
      AppendMasked(p);
      if env.mode.Fresh? && |bytes| > MaxOutputChars {
        return Failed;
      }
      if |context| >= c.patchLength * c.patchSize {
        var w := RebuildWindow(bytes, cut);
        if w.None? {
          return Stopped;
        }
        context := Flatten(env.codec.encodeGenerate(w.value.0));
        cut := Some(w.value.1);
      }
      return Running;
    }

    /** The inner `while True` of one attempt, stopped after `fuel` iterations. */
    method Run(fuel: nat) returns (status: Status)
      modifies this
      ensures (status, Snapshot()) == RunSpec(env, old(Snapshot()), fuel)
    {
      status := Running;
      var n: nat := fuel;
      while n > 0
        invariant n <= fuel && status == Running
        invariant RunSpec(env, old(Snapshot()), fuel) == RunSpec(env, Snapshot(), n)
      {
        ghost var before := Snapshot();
        status := Step();
        n := n - 1;
        if status != Running {
          assert RunSpec(env, before, n + 1) == (status, Snapshot());
          return;
        }
      }
    }
  }

  /** The assembly of gradio/inference.py:237-253 around the
      `rest_unreduce` loops. */
  method AssembleOutput(kit: Toolkit, text: string) returns (r: Result<string, Voices.UnreduceError>)
    ensures r == FinalText(kit, text)
  {
    var u := Unreduce.RestUnreduce(kit, NonEmptyLines(Lines(text)));
    if u.Err? {
      return Err(u.error);
    }
    r := Ok(Concat(["X:1\n"] + DropComments(u.value)));
  }

  /** One turn of the outer loop: start, run, assemble. */
  method RunAttempt(env: Env, kit: Toolkit, period: string, composer: string, instrumentation: string, fuel: nat)
    returns (r: AttemptResult)
    requires env.config.patchSize >= 1
    ensures r == AttemptSpec(env, kit, period, composer, instrumentation, fuel)
  {
    var lines := PromptLines(period, composer, instrumentation);
    var s := Start(env, lines);
    if s.None? {
      return Raised;
    }
    var attempt := new Attempt(env, s.value);
    var status := attempt.Run(fuel);
    if status == Running {
      return Unfinished;
    } else if status == Crashed {
      return Raised;
    } else if status == Failed {
      return Retry;
    }
    var text := AssembleOutput(kit, attempt.bytes);
    if text.Err? {
      return Retry;
    }
    r := Returned(text.value);
  }
}
