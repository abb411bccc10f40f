/** Patches: the fixed-width rows of byte codes the predictor reads and
    writes (gradio/inference.py, the patch handling inside `inference_patch`
    and `inference_completetion`). */
module Patches {
  import opened Wrappers
  import opened Text

  /** Patch geometry (PATCH_SIZE, PATCH_LENGTH) and the codec's reserved
      codes (special, bos, eos). Their values live in the configuration and
      the codec, which are not part of this model, so they are parameters. */
  datatype Config = Config(patchSize: nat, patchLength: nat, special: int, bos: int, eos: int)

  /** `[x] * n`, which is empty for `n <= 0`. */
  function Repeat(x: int, n: int): (r: seq<int>)
    ensures |r| == if n <= 0 then 0 else n
    ensures forall i :: 0 <= i < |r| ==> r[i] == x
  {
    if n <= 0 then [] else [x] + Repeat(x, n - 1)
  }

  /** `[ord(ch) for ch in s]` */
  function Codes(s: string): (r: seq<int>)
    ensures |r| == |s|
    ensures forall i :: 0 <= i < |s| ==> r[i] == s[i] as int
  {
    seq(|s|, i requires 0 <= i < |s| => s[i] as int)
  }

  /** Coding works character by character. */
  lemma CodesAppend(a: string, b: string)
    ensures Codes(a + b) == Codes(a) + Codes(b)
  {
  }

  /** The codes determine the text: no two texts share a coding. */
  lemma CodesInjective(a: string, b: string)
    ensures Codes(a) == Codes(b) ==> a == b
  {
    if Codes(a) == Codes(b) {
      forall i | 0 <= i < |a| ensures a[i] == b[i] {
        assert Codes(a)[i] == Codes(b)[i];
      }
    }
  }

  /** The start patch `[bos] * (PATCH_SIZE - 1) + [eos]`. */
  function Sentinel(c: Config): (r: seq<int>)
    requires c.patchSize >= 1
    ensures |r| == c.patchSize
    ensures forall i :: 0 <= i < c.patchSize - 1 ==> r[i] == c.bos
    ensures r[c.patchSize - 1] == c.eos
  {
    Repeat(c.bos, c.patchSize - 1) + [c.eos]
  }

  /** `p + [special] * (PATCH_SIZE - len(p))`: a short patch is filled up to
      the width with the special code, a long one is left as it is. */
  function Pad(c: Config, p: seq<int>): (r: seq<int>)
    ensures |r| == if |p| <= c.patchSize then c.patchSize else |p|
    ensures r[..|p|] == p
    ensures forall i :: |p| <= i < |r| ==> r[i] == c.special
  {
    p + Repeat(c.special, c.patchSize - |p|)
  }

  /** The end-of-generation test: the first two codes are bos, eos. */
  predicate IsEnd(c: Config, p: seq<int>)
    requires |p| >= 2
  {
    p[0] == c.bos && p[1] == c.eos
  }

  /** The start patch passes the end test only when patches are two codes
      wide: for any wider patch its second code is bos. */
  lemma SentinelIsEndOnlyAtWidthTwo(c: Config)
    requires c.patchSize >= 2 && c.bos != c.eos
    ensures IsEnd(c, Sentinel(c)) <==> c.patchSize == 2
  {
  }

  /** The codes of the forced tunebody opening `[r:0/`. */
  function R0(): (r: seq<int>)
    ensures |r| == 5
  {
    Codes("[r:0/")
  }

  /** The in-place masking loop as a function: once an eos has been seen,
      every later code becomes the special code. */
  function MaskFrom(c: Config, p: seq<int>, ended: bool): seq<int>
  {
    if p == [] then []
    else
      var x := if ended then c.special else p[0];
      [x] + MaskFrom(c, p[1..], ended || x == c.eos)
  }

  function Masked(c: Config, p: seq<int>): seq<int>
  {
    MaskFrom(c, p, false)
  }

  /** Index of the first occurrence of `x` in `p`. */
  function IndexOf(p: seq<int>, x: int): (r: Option<nat>)
    ensures r.Some? ==> r.value < |p| && p[r.value] == x && x !in p[..r.value]
    ensures r.None? <==> x !in p
  {
    if p == [] then None
    else if p[0] == x then Some(0)
    else
      match IndexOf(p[1..], x)
      case Some(i) =>
        assert p[..i + 1] == [p[0]] + p[1..][..i];
        Some(i + 1)
      case None => None
  }

  lemma {:induction false} MaskFromEnded(c: Config, p: seq<int>)
    ensures MaskFrom(c, p, true) == Repeat(c.special, |p|)
  {
    if p != [] {
      MaskFromEnded(c, p[1..]);
    }
  }

  /** Masking keeps the patch up to and including its first eos and turns
      everything after it into the special code; a patch without eos is
      unchanged. */
  lemma {:induction false} MaskedShape(c: Config, p: seq<int>)
    ensures Masked(c, p) == match IndexOf(p, c.eos)
                            case None => p
                            case Some(k) => p[..k + 1] + Repeat(c.special, |p| - k - 1)
  {
    if p != [] {
      if p[0] == c.eos {
        MaskFromEnded(c, p[1..]);
      } else {
        assert Masked(c, p) == [p[0]] + Masked(c, p[1..]);
        MaskedShape(c, p[1..]);
        match IndexOf(p[1..], c.eos)
        case None =>
        case Some(k) =>
          assert IndexOf(p, c.eos) == Some(k + 1);
          assert p[..k + 2] == [p[0]] + p[1..][..k + 1];
          assert |p| - (k + 1) - 1 == |p[1..]| - k - 1;
      }
    }
  }

  /** The masking loop of gradio/inference.py:187-192, on the patch in place. */
  method MaskAfterFirstEos(c: Config, a: array<int>)
    modifies a
    ensures a[..] == Masked(c, old(a[..]))
  {
    ghost var p := a[..];
    var ended := false;
    var j := 0;
    while j < a.Length
      invariant 0 <= j <= a.Length
      invariant a[j..] == p[j..]
      invariant Masked(c, p) == a[..j] + MaskFrom(c, p[j..], ended)
    {
      assert p[j..][1..] == p[j + 1..];
      if ended {
        a[j] := c.special;
      }
      if a[j] == c.eos {
        ended := true;
      }
      j := j + 1;
      assert a[..j] == a[..j - 1] + [a[j - 1]];
    }
    assert a[..] == a[..j];
  }

  /** `''.join`-style concatenation of rows, as `reshape(1, -1)` lays a tensor out. */
  function Flatten(rows: seq<seq<int>>): seq<int>
  {
    if rows == [] then [] else rows[0] + Flatten(rows[1..])
  }

  lemma {:induction false} FlattenAppend(a: seq<seq<int>>, b: seq<seq<int>>)
    ensures Flatten(a + b) == Flatten(a) + Flatten(b)
  {
    if a == [] {
      assert a + b == b;
    } else {
      assert (a + b)[0] == a[0];
      assert (a + b)[1..] == a[1..] + b;
      FlattenAppend(a[1..], b);
    }
  }

  predicate Rectangular(rows: seq<seq<int>>) {
    forall i :: 0 <= i < |rows| ==> |rows[i]| == |rows[0]|
  }

  /** `torch.tensor(rows).reshape(1, -1)`: `None` where torch rejects a ragged list. */
  function Tensor(rows: seq<seq<int>>): (r: Option<seq<int>>)
    ensures r.Some? <==> Rectangular(rows)
  {
    if Rectangular(rows) then Some(Flatten(rows)) else None
  }

  /** A rectangular list of rows holds rows times width codes. */
  lemma {:induction false} FlattenRectangular(rows: seq<seq<int>>, w: nat)
    requires forall i :: 0 <= i < |rows| ==> |rows[i]| == w
    ensures |Flatten(rows)| == |rows| * w
  {
    if rows != [] {
      FlattenRectangular(rows[1..], w);
    }
  }

  lemma MulStep(i: nat, w: nat)
    requires i >= 1
    ensures i * w == (i - 1) * w + w
  {
  }

  /** Row `i`, column `j` of `w`-wide rows sits at `i * w + j` of the flat list. */
  lemma {:induction false} FlattenAt(rows: seq<seq<int>>, w: nat, i: nat, j: nat)
    requires forall r :: 0 <= r < |rows| ==> |rows[r]| == w
    requires i < |rows| && j < w
    ensures i * w + j < |Flatten(rows)| && Flatten(rows)[i * w + j] == rows[i][j]
    decreases i
  {
    assert Flatten(rows) == rows[0] + Flatten(rows[1..]);
    if i > 0 {
      FlattenAt(rows[1..], w, i - 1, j);
      MulStep(i, w);
      assert i * w + j == w + ((i - 1) * w + j);
    }
  }

  /** `reshape(1, -1)` of the rows lays them out one after the other: the
      tensor holds rows times width codes, and column `j` of row `i` sits at
      `i * width + j`. */
  lemma TensorLayout(rows: seq<seq<int>>, i: nat, j: nat)
    requires i < |rows| && j < |rows[0]|
    ensures Tensor(rows).Some? ==>
              && |Tensor(rows).value| == |rows| * |rows[0]|
              && i * |rows[0]| + j < |Tensor(rows).value|
              && Tensor(rows).value[i * |rows[0]| + j] == rows[i][j]
  {
    if Rectangular(rows) {
      FlattenRectangular(rows, |rows[0]|);
      FlattenAt(rows, |rows[0]|, i, j);
    }
  }

  /** The prompt rows: the start patch first, then every metadata chunk as
      codes padded to the width (gradio/inference.py:153-155). */
  function PromptRows(c: Config, chunks: seq<string>): (rows: seq<seq<int>>)
    requires c.patchSize >= 1
    ensures |rows| == |chunks| + 1 && rows[0] == Sentinel(c)
    ensures forall i :: 0 <= i < |chunks| && |chunks[i]| <= c.patchSize ==>
              |rows[i + 1]| == c.patchSize && rows[i + 1] == Codes(chunks[i]) + Repeat(c.special, c.patchSize - |chunks[i]|)
    ensures Rectangular(rows) <==> forall i :: 0 <= i < |chunks| ==> |chunks[i]| <= c.patchSize
  {
    var rows := [Sentinel(c)] + PadChunks(c, chunks);
    PaddedChunks(c, chunks, rows);
    rows
  }

  function PadChunks(c: Config, chunks: seq<string>): (pads: seq<seq<int>>)
    ensures |pads| == |chunks| && forall i :: 0 <= i < |chunks| ==> pads[i] == Pad(c, Codes(chunks[i]))
  {
    seq(|chunks|, i requires 0 <= i < |chunks| => Pad(c, Codes(chunks[i])))
  }

  /** A chunk's row has the width exactly when the chunk fits in one patch. */
  lemma PaddedChunks(c: Config, chunks: seq<string>, rows: seq<seq<int>>)
    requires c.patchSize >= 1
    requires rows == [Sentinel(c)] + PadChunks(c, chunks)
    ensures |rows| == |chunks| + 1 && rows[0] == Sentinel(c)
    ensures forall i :: 0 <= i < |chunks| && |chunks[i]| <= c.patchSize ==>
              |rows[i + 1]| == c.patchSize && rows[i + 1] == Codes(chunks[i]) + Repeat(c.special, c.patchSize - |chunks[i]|)
    ensures Rectangular(rows) <==> forall i :: 0 <= i < |chunks| ==> |chunks[i]| <= c.patchSize
  {
    var pads := PadChunks(c, chunks);
    forall i | 0 <= i < |chunks|
      ensures |rows[i + 1]| == c.patchSize <==> |chunks[i]| <= c.patchSize
      ensures |chunks[i]| <= c.patchSize ==> rows[i + 1] == Codes(chunks[i]) + Repeat(c.special, c.patchSize - |chunks[i]|)
    {
      assert rows[i + 1] == pads[i] == Pad(c, Codes(chunks[i]));
    }
    RowsOfWidth(rows, c.patchSize);
  }

  /** Rows are all as wide as the first, of width `w`, exactly when every
      row after the first has width `w`. */
  lemma RowsOfWidth(rows: seq<seq<int>>, w: nat)
    requires |rows| >= 1 && |rows[0]| == w
    ensures Rectangular(rows) <==> forall i :: 1 <= i < |rows| ==> |rows[i]| == w
  {
  }
}
