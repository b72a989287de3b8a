/** The processing loop of apply_effect_to_wav: effect output of varying length is
    collected in a ring, cut into chunks of ten milliseconds for the resampler,
    and the file is filled up with silence to the length its header announces. */
module WavEffect {
  import opened Rings
  import opened Samples
  import TimeScaleSpec
  import PaceShift

  const L_PROC := 320  // ten milliseconds at FS_PROC = 32000
  const RING := TimeScaleSpec.RING

  // ---- Counting -----------------------------------------------------------------

  function Flatten(blocks: seq<seq<Sample>>): seq<Sample> {
    if blocks == [] then [] else Flatten(blocks[..|blocks| - 1]) + blocks[|blocks| - 1]
  }

  /** Chunks handed on after `i` frames: every full one that the effect produced. */
  function ChunksAfter(effect: seq<seq<Sample>>, i: nat): nat
    requires i <= |effect|
  {
    |Flatten(effect[..i])| / L_PROC
  }

  /** The loop stops when less than two output frames are missing. */
  predicate NearlyDone(effect: seq<seq<Sample>>, l: nat, total: int, i: nat)
    requires i <= |effect|
  {
    total - l * ChunksAfter(effect, i) < 2 * l
  }

  /** How many of the readable frames are processed, from frame `i` on. */
  function Used(effect: seq<seq<Sample>>, l: nat, total: int, i: nat): (u: nat)
    requires i <= |effect|
    ensures i <= u <= |effect|
    decreases |effect| - i
  {
    if i == |effect| then i
    else if NearlyDone(effect, l, total, i + 1) then i + 1
    else Used(effect, l, total, i + 1)
  }

  /** Samples the header announces: input samples times the length factor in
      1/1024, rounded down. */
  function SamplesOut(samplesIn: nat, factorQ10: nat): nat {
    (samplesIn * factorQ10) / 1024
  }

  lemma ChunksGrow(effect: seq<seq<Sample>>, i: nat)
    requires i < |effect| && |effect[i]| < 2 * L_PROC
    ensures ChunksAfter(effect, i) <= ChunksAfter(effect, i + 1) <= ChunksAfter(effect, i) + 2
  {
    assert effect[..i + 1][..i] == effect[..i];
  }

  /** With less than two chunks of output per frame, and enough room for the first
      one, the chunks never exceed the announced length. */
  lemma {:induction false} NeverTooLong(effect: seq<seq<Sample>>, l: nat, total: int, i: nat)
    requires i <= |effect| && forall j :: 0 <= j < |effect| ==> |effect[j]| < 2 * L_PROC
    requires l * ChunksAfter(effect, i) <= total
    requires if i == 0 then |effect| > 0 && |effect[0]| >= L_PROC ==> l <= total else !NearlyDone(effect, l, total, i)
    ensures l * ChunksAfter(effect, Used(effect, l, total, i)) <= total
    decreases |effect| - i
  {
    if i < |effect| {
      var c, c' := ChunksAfter(effect, i), ChunksAfter(effect, i + 1);
      ChunksGrow(effect, i);
      if i == 0 {
        assert effect[..0] == [] && effect[..1] == [effect[0]];
        assert effect[..1][..0] == [];
        assert c' <= 1;
      }
      assert c' == c || c' == c + 1 || c' == c + 2;
      assert l * (c + 1) == l * c + l && l * (c + 2) == l * c + 2 * l;
      if !NearlyDone(effect, l, total, i + 1) {
        NeverTooLong(effect, l, total, i + 1);
      }
    }
  }

  /** Conservation: the resampled chunks and the silence behind them make up
      exactly the announced number of samples. */
  lemma ExactLength(effect: seq<seq<Sample>>, l: nat, samplesIn: nat, factorQ10: nat)
    requires l >= 1 && |effect| <= samplesIn / l
    requires forall j :: 0 <= j < |effect| ==> |effect[j]| < 2 * L_PROC
    requires |effect| > 0 && |effect[0]| >= L_PROC ==> factorQ10 >= 1024
    ensures var total := SamplesOut(samplesIn, factorQ10);
            l * ChunksAfter(effect, Used(effect, l, total, 0)) <= total
  {
    var total := SamplesOut(samplesIn, factorQ10);
    assert effect[..0] == [];
    if |effect| > 0 && |effect[0]| >= L_PROC {
      assert samplesIn * factorQ10 >= samplesIn * 1024;
      assert samplesIn >= l;
    }
    NeverTooLong(effect, l, total, 0);
  }

  /** Both pace effects meet the conditions of ExactLength: they announce their own
      length factor and stay below two chunks per frame. */
  lemma PaceShiftFits(effect: seq<seq<Sample>>, l: nat, samplesIn: nat, shift: real)
    requires PaceShift.ShiftOk(shift) && l >= 1 && |effect| <= samplesIn / l
    requires forall j :: 0 <= j < |effect| ==> |effect[j]| == PaceShift.OutLength(L_PROC, shift)
    ensures PaceShift.LengthFactor(shift) >= 0
    ensures var total := SamplesOut(samplesIn, PaceShift.LengthFactor(shift));
            l * ChunksAfter(effect, Used(effect, l, total, 0)) <= total
  {
    PaceShift.ShiftBounds(L_PROC, shift);
    assert shift < 1.0 ==> PaceShift.OutLength(L_PROC, shift) < L_PROC;
    ExactLength(effect, l, samplesIn, PaceShift.LengthFactor(shift));
  }

  /** The factor matters: a single frame that fills one chunk fits exactly when the
      factor does not shorten the file. */
  lemma OneFrameFits(block: seq<Sample>, l: nat, factorQ10: nat)
    requires l >= 1 && L_PROC <= |block| < 2 * L_PROC
    ensures var total := SamplesOut(l, factorQ10);
            l * ChunksAfter([block], Used([block], l, total, 0)) <= total <==> factorQ10 >= 1024
  {
    var e := [block];
    assert ChunksAfter(e, 1) == 1 by {
      assert e[..1] == e && e[..0] == [];
      assert Flatten(e) == block;
    }
    assert Used(e, l, SamplesOut(l, factorQ10), 0) == 1;
    hide Used, ChunksAfter;
    KeptWhole(l, factorQ10);
  }

  lemma KeptWhole(l: nat, factorQ10: nat)
    requires l >= 1
    ensures l <= SamplesOut(l, factorQ10) <==> factorQ10 >= 1024
  {
    if factorQ10 >= 1024 {
      Scaled(l, 1024, factorQ10);
    } else {
      Scaled(l, factorQ10, 1023);
    }
  }

  lemma Scaled(l: nat, a: nat, b: nat)
    requires a <= b
    ensures l * a <= l * b
  {
  }

  // ---- The ring -------------------------------------------------------------------

  class CircBuf {
    var buf: array<Sample>
    var readIdx: int
    var writeIdx: int
    ghost var stream: seq<Sample>  // everything ever written
    ghost var r: nat               // how much of it has been read

    ghost predicate Valid()
      reads this, buf
    {
      && buf.Length == RING
      && r <= |stream| < r + RING
      && readIdx == Slot(RING, r)
      && writeIdx == Slot(RING, |stream|)
      && forall k {:trigger stream[k]} :: r <= k < |stream| ==> buf[Slot(RING, k)] == stream[k]
    }

    constructor ()
      ensures Valid() && fresh(buf) && stream == [] && r == 0
    {
      buf := new Sample[RING](_ => 0);
      readIdx, writeIdx, stream, r := 0, 0, [], 0;
    }

    method Level() returns (n: nat)
      requires Valid()
      ensures n == |stream| - r
    {
      SlotDistance(RING, |stream|, r);
      n := Slot(RING, writeIdx - readIdx);
    }

    method Put(x: Sample)
      requires Valid() && |stream| + 1 < r + RING
      modifies this`writeIdx, this`stream, buf
      ensures Valid() && stream == old(stream) + [x]
    {
      hide Slot;
      forall k | r <= k < |stream|
        ensures Slot(RING, k) != Slot(RING, |stream|)
      {
        SlotsDiffer(RING, k, |stream|);
      }
      buf[writeIdx] := x;
      SlotStep(RING, |stream|, 1);
      writeIdx := Slot(RING, writeIdx + 1);
      stream := stream + [x];
    }

    method Write(block: seq<Sample>)
      requires Valid() && |stream| + |block| < r + RING
      modifies this`writeIdx, this`stream, buf
      ensures Valid() && stream == old(stream) + block
    {
      for j := 0 to |block|
        invariant Valid() && stream == old(stream) + block[..j]
      {
        Put(block[j]);
      }
    }

    method Read(n: nat) returns (block: seq<Sample>)
      requires Valid() && r + n <= |stream|
      modifies this`readIdx, this`r
      ensures Valid() && r == old(r) + n && block == stream[old(r)..r]
    {
      hide Slot;
      block := [];
      for j := 0 to n
        invariant Valid() && r == old(r) + j && block == stream[old(r)..r]
      {
        assert buf[readIdx] == stream[r];
        block := block + [buf[readIdx]];
        SlotStep(RING, r, 1);
        readIdx := Slot(RING, readIdx + 1);
        r := r + 1;
      }
    }
  }

  /** The first `n` chunks of a stream. */
  predicate IsChunks(chunks: seq<seq<Sample>>, s: seq<Sample>) {
    && |chunks| * L_PROC <= |s|
    && forall i :: 0 <= i < |chunks| ==> chunks[i] == s[i * L_PROC..(i + 1) * L_PROC]
  }

  lemma IsChunksAdd(chunks: seq<seq<Sample>>, s: seq<Sample>, c: seq<Sample>)
    requires IsChunks(chunks, s) && |chunks| * L_PROC + L_PROC <= |s|
    requires c == s[|chunks| * L_PROC..|chunks| * L_PROC + L_PROC]
    ensures IsChunks(chunks + [c], s)
  {
  }

  /** The drain loop: hand on full chunks until less than one is left. */
  method DrainChunks(cb: CircBuf, before: seq<seq<Sample>>, l: nat, nBefore: nat)
    returns (chunks: seq<seq<Sample>>, n: nat)
    requires cb.Valid() && IsChunks(before, cb.stream) && cb.r == |before| * L_PROC && nBefore == l * |before|
    modifies cb`readIdx, cb`r
    ensures cb.Valid() && IsChunks(chunks, cb.stream) && cb.r == |chunks| * L_PROC && n == l * |chunks|
    ensures |cb.stream| - cb.r < L_PROC
  {
    hide IsChunks, Slot;
    chunks, n := before, nBefore;
    var bufSmpls := cb.Level();
    while bufSmpls >= L_PROC
      invariant cb.Valid() && bufSmpls == |cb.stream| - cb.r
      invariant IsChunks(chunks, cb.stream) && cb.r == |chunks| * L_PROC && n == l * |chunks|
      decreases bufSmpls
    {
      var procOut := cb.Read(L_PROC);
      IsChunksAdd(chunks, cb.stream, procOut);
      chunks := chunks + [procOut];
      n := n + l;
      bufSmpls := cb.Level();
    }
  }

  /** The whole loop over the readable frames. `effect` holds what the effect made
      of each of them; `fill` is the silence written at the end. */
  method Convert(l: nat, effect: seq<seq<Sample>>, samplesOut: nat)
    returns (chunks: seq<seq<Sample>>, fill: nat)
    requires forall j :: 0 <= j < |effect| ==> |effect[j]| <= RING - L_PROC
    ensures var used := Used(effect, l, samplesOut, 0);
            && IsChunks(chunks, Flatten(effect[..used]))
            && |chunks| == ChunksAfter(effect, used)
    ensures fill == if l * |chunks| < samplesOut then samplesOut - l * |chunks| else 0
    ensures && (forall j :: 0 <= j < |effect| ==> |effect[j]| < 2 * L_PROC)
            && (|effect| > 0 && |effect[0]| >= L_PROC ==> l <= samplesOut)
            ==> l * |chunks| + fill == samplesOut
  {
    var cb := new CircBuf();
    chunks := [];
    var n, i, stop := 0, 0, false;
    assert effect[..0] == [];
    while i < |effect| && !stop
      invariant cb.Valid() && fresh(cb) && fresh(cb.buf) && i <= |effect|
      invariant cb.stream == Flatten(effect[..i]) && cb.r == |chunks| * L_PROC && |cb.stream| - cb.r < L_PROC
      invariant IsChunks(chunks, cb.stream) && n == l * |chunks|
      invariant Used(effect, l, samplesOut, 0) == if stop then i else Used(effect, l, samplesOut, i)
      decreases |effect| - i, !stop
    {
      assert effect[..i + 1][..i] == effect[..i];
      cb.Write(effect[i]);
      chunks, n := DrainChunks(cb, chunks, l, n);
      i := i + 1;
      ChunkCount(|cb.stream|, |chunks|);
      var rem := samplesOut - n;
      if rem < l * 2 {
        stop := true;
      }
    }
    ChunkCount(|cb.stream|, |chunks|);
    var rem := samplesOut - n;
    fill := if rem > 0 then rem else 0;
    if && (forall j :: 0 <= j < |effect| ==> |effect[j]| < 2 * L_PROC)
       && (|effect| > 0 && |effect[0]| >= L_PROC ==> l <= samplesOut) {
      NeverTooLong(effect, l, samplesOut, 0);
    }
  }

  lemma ChunkCount(size: nat, n: nat)
    requires n * L_PROC <= size < n * L_PROC + L_PROC
    ensures size / L_PROC == n
  {
  }
}
