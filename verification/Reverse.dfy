/** The reverse effect on files: pcm_interface.cpp and wav_interface.cpp seek
    backwards block by block, write each block reversed and then append the
    original. */
module Reverse {
  import opened Samples

  // ---- What it should compute ---------------------------------------------------

  /** The stream played backwards. */
  function Reversed(s: seq<Sample>): (r: seq<Sample>)
    ensures |r| == |s|
  {
    seq(|s|, i requires 0 <= i < |s| => s[|s| - 1 - i])
  }

  /** A later part comes out first. */
  lemma ReversedConcat(a: seq<Sample>, b: seq<Sample>)
    ensures Reversed(a + b) == Reversed(b) + Reversed(a)
  {
  }

  lemma ReversedNothing()
    ensures Reversed([]) == []
  {
  }

  lemma ReversedTwice(s: seq<Sample>)
    ensures Reversed(Reversed(s)) == s
  {
  }

  function Zeros(n: nat): (z: seq<Sample>)
    ensures |z| == n
  {
    seq(n, _ => 0)
  }

  // ---- Files -----------------------------------------------------------------------

  /** A file of 16-bit samples with a position. */
  class SampleFile {
    var data: seq<Sample>
    var pos: nat

    constructor (contents: seq<Sample>, at: nat)
      ensures data == contents && pos == at
    {
      data, pos := contents, at;
    }

    method Seek(offset: int)
      requires pos + offset >= 0
      modifies this`pos
      ensures pos == old(pos) + offset
    {
      pos := pos + offset;
    }

    /** fread: at most `n` samples, fewer at the end of the file. */
    method Read(n: nat) returns (block: seq<Sample>)
      requires pos <= |data|
      modifies this`pos
      ensures |block| == if old(pos) + n <= |data| then n else |data| - old(pos)
      ensures pos == old(pos) + |block| <= |data| && block == data[old(pos)..pos]
    {
      var end := if pos + n <= |data| then pos + n else |data|;
      block := data[pos..end];
      pos := end;
    }

    method Write(block: seq<Sample>)
      modifies this`data
      ensures data == old(data) + block
    {
      data := data + block;
    }
  }

  /** The inner loop: bufOut[j] = bufIn[L - j - 1]. */
  method ReverseBlock(bufIn: seq<Sample>) returns (bufOut: seq<Sample>)
    ensures bufOut == Reversed(bufIn)
  {
    bufOut := [];
    for j := 0 to |bufIn|
      invariant bufOut == Reversed(bufIn)[..j]
    {
      bufOut := bufOut + [bufIn[|bufIn| - j - 1]];
    }
  }

  lemma BlockBounds(i: nat, n: nat, l: nat)
    requires i < n
    ensures (i + 1) * l == i * l + l && (i + 1) * l <= n * l
  {
    ProductStep(l, i, n);
    assert (i + 1) * l == l * i + l && n * l == l * n;
  }

  /** Steps back over `n` blocks of `l` samples, writing each one reversed. */
  method BackwardBlocks(f: SampleFile, out: SampleFile, l: nat, n: nat)
    requires f != out && n * l <= f.pos <= |f.data|
    modifies f`pos, out`data
    ensures f.pos == old(f.pos) - n * l
    ensures out.data == old(out.data) + Reversed(f.data[f.pos..old(f.pos)])
  {
    hide Reversed;
    assert f.data[f.pos..f.pos] == [];
    ReversedNothing();
    for i := 0 to n
      invariant f.pos == old(f.pos) - i * l
      invariant out.data == old(out.data) + Reversed(f.data[f.pos..old(f.pos)])
    {
      BlockBounds(i, n, l);
      ghost var p := f.pos;
      f.Seek(0 - l);
      var bufIn := f.Read(l);
      var bufOut := ReverseBlock(bufIn);
      out.Write(bufOut);
      f.Seek(0 - l);
      ReversedConcat(f.data[p - l..p], f.data[p..old(f.pos)]);
      assert f.data[p - l..p] + f.data[p..old(f.pos)] == f.data[p - l..old(f.pos)];
    }
  }

  /** Copies `n` blocks of `l` samples. */
  method ForwardBlocks(f: SampleFile, out: SampleFile, l: nat, n: nat)
    requires f != out && f.pos + n * l <= |f.data|
    modifies f`pos, out`data
    ensures f.pos == old(f.pos) + n * l
    ensures out.data == old(out.data) + f.data[old(f.pos)..f.pos]
  {
    for i := 0 to n
      invariant f.pos == old(f.pos) + i * l
      invariant out.data == old(out.data) + f.data[old(f.pos)..f.pos]
    {
      BlockBounds(i, n, l);
      var bufIn := f.Read(l);
      out.Write(bufIn);
    }
  }

  /** get_number_of_frames: whole blocks up to the first short read. */
  method NumberOfFrames(data: seq<Sample>, l: nat) returns (frames: nat)
    requires l >= 1
    ensures frames == |data| / l
  {
    var f := new SampleFile(data, 0);
    frames := 0;
    while true
      invariant f.data == data && f.pos == frames * l <= |data|
      decreases |data| - f.pos
    {
      var bufIn := f.Read(l);
      if |bufIn| < l {
        break;
      }
      frames := frames + 1;
    }
    QuotientIs(|data|, l, frames);
  }

  lemma QuotientIs(a: nat, l: nat, n: nat)
    requires l >= 1 && n * l <= a < n * l + l
    ensures n == a / l
  {
    assert a == l * (a / l) + a % l;
    ProductStep(l, n, a / l);
    ProductStep(l, a / l, n);
  }

  /** reverse_stream of pcm_interface.cpp: the whole blocks of the file reversed as
      one stream, followed by the same blocks in order. */
  method ReversePcm(pcm: seq<Sample>, fsHz: nat) returns (result: seq<Sample>)
    requires fsHz >= 100
    ensures var l := fsHz / 100;
            var s := pcm[..(|pcm| / l) * l];
            result == Reversed(s) + s
  {
    var l := fsHz / 100;
    var n := NumberOfFrames(pcm, l);
    assert n * l <= |pcm|;
    var f := new SampleFile(pcm, 0);
    var out := new SampleFile([], 0);
    f.Seek(l * n);
    BackwardBlocks(f, out, l, n);
    f.Seek(0 - f.pos);
    ForwardBlocks(f, out, l, n);
    result := out.data;
    assert pcm[0..n * l] == pcm[..n * l];
  }

  lemma Remainder(samples: nat, l: nat)
    requires l > 0
    ensures 0 <= (samples / l) * l <= samples && samples - (samples / l) * l == samples % l
  {
  }

  /** reverse_stream of wav_interface.cpp: `samples` samples of audio start at
      `base`. The last whole blocks come out reversed and then in order, each padded
      with silence to the original length. */
  method ReverseWav(file: seq<Sample>, base: nat, samples: nat, sampleRate: nat) returns (result: seq<Sample>)
    requires sampleRate >= 100 && base + samples <= |file|
    ensures var l := sampleRate / 100;
            var rem := samples % l;
            var s := file[base + rem..base + samples];
            result == Reversed(s) + Zeros(rem) + s + Zeros(rem)
    ensures |result| == 2 * samples
  {
    hide Reversed, Zeros;
    var l := sampleRate / 100;
    var n := samples / l;
    var rem := samples - n * l;
    Remainder(samples, l);
    var f := new SampleFile(file, base);
    var out := new SampleFile([], 0);
    f.Seek(samples);
    BackwardBlocks(f, out, l, n);
    ghost var s := file[base + rem..base + samples];
    assert out.data == Reversed(s);
    out.Write(Zeros(rem));
    ForwardBlocks(f, out, l, n);
    out.Write(Zeros(rem));
    result := out.data;
  }
}
