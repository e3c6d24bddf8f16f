/** Chunks of bytes and what each advances the progress bar by: its length
    in bytes mode (`read_bytes`), its count of `\n` in lines mode
    (`read_lines`). */
module Chunks {

  /** An octet of a Python `bytes` value. */
  newtype byte = b: int | 0 <= b < 256

  const Newline: byte := 10

  /** The two stream methods `read` chooses between. */
  datatype Reader = ByteReader | LineReader

  /** `buff.count(b'\n')`: at most one per byte, and none exactly when the
      chunk holds no newline. */
  function NewlineCount(s: seq<byte>): (c: nat)
    ensures c <= |s|
    ensures c == 0 <==> Newline !in s
  {
    if s == [] then 0
    else NewlineCount(s[..|s| - 1]) + (if s[|s| - 1] == Newline then 1 else 0)
  }

  /** The count is the multiplicity of the newline byte: an independent
      definition of the same number. */
  lemma {:induction false} NewlineCountIsMultiplicity(s: seq<byte>)
    ensures NewlineCount(s) == multiset(s)[Newline]
  {
    if s != [] {
      var init := s[..|s| - 1];
      assert s == init + [s[|s| - 1]];
      var last := s[|s| - 1];
      assert multiset(s) == multiset(init) + multiset{last};
      NewlineCountIsMultiplicity(init);
      assert NewlineCount(s) == NewlineCount(init) + (if last == Newline then 1 else 0);
    }
  }

  /** Counting newlines distributes over concatenation: a boundary between two
      chunks neither adds nor loses a line. */
  lemma {:induction false} NewlineCountAppend(a: seq<byte>, b: seq<byte>)
    ensures NewlineCount(a + b) == NewlineCount(a) + NewlineCount(b)
  {
    if b != [] {
      var init := b[..|b| - 1];
      assert a + b == (a + init) + [b[|b| - 1]];
      assert (a + b)[..|a + b| - 1] == a + init;
      NewlineCountAppend(a, init);
    } else {
      assert a + b == a;
    }
  }

  /** A final line without its `\n` is never counted. */
  lemma UnterminatedLineNotCounted(s: seq<byte>, line: seq<byte>)
    requires Newline !in line
    ensures NewlineCount(s + line) == NewlineCount(s)
  {
    NewlineCountAppend(s, line);
    NewlineCountIsMultiplicity(line);
    assert Newline !in multiset(line);
  }

  /** "a\nb\nc" holds two newlines, not three. */
  lemma ThreeLinesCountTwo()
    ensures NewlineCount([97, 10, 98, 10, 99]) == 2
  {
    var s: seq<byte> := [97, 10, 98, 10, 99];
    NewlineCountIsMultiplicity(s);
    assert multiset(s) == multiset{97, 98, 99} + multiset{10, 10};
  }

  /** The amount `progress.update` is called with for one chunk: never more
      than the chunk's length, and exactly that length in bytes mode. */
  function Advance(reader: Reader, buff: seq<byte>): (a: nat)
    ensures a <= |buff|
    ensures reader == ByteReader ==> a == |buff|
  {
    match reader
    case ByteReader => |buff|
    case LineReader => NewlineCount(buff)
  }

  lemma AdvanceAppend(reader: Reader, a: seq<byte>, b: seq<byte>)
    ensures Advance(reader, a + b) == Advance(reader, a) + Advance(reader, b)
  {
    if reader == LineReader {
      NewlineCountAppend(a, b);
    }
  }

  /** The chunks joined in order. */
  function Flatten(cs: seq<seq<byte>>): seq<byte>
  {
    if cs == [] then [] else Flatten(cs[..|cs| - 1]) + cs[|cs| - 1]
  }

  /** Joining two runs of chunks joins their contents. */
  lemma {:induction false} FlattenAppend(xs: seq<seq<byte>>, ys: seq<seq<byte>>)
    ensures Flatten(xs + ys) == Flatten(xs) + Flatten(ys)
  {
    if ys == [] {
      assert xs + ys == xs;
    } else {
      var init := ys[..|ys| - 1];
      assert (xs + ys)[..|xs + ys| - 1] == xs + init;
      FlattenAppend(xs, init);
    }
  }

  /** The sum of the per-chunk updates. */
  function TotalAdvance(reader: Reader, cs: seq<seq<byte>>): nat
  {
    if cs == [] then 0 else TotalAdvance(reader, cs[..|cs| - 1]) + Advance(reader, cs[|cs| - 1])
  }

  /** However the content was cut into chunks, the updates add up to the
      measure of the whole content. */
  lemma {:induction false} ChunkingInvariance(reader: Reader, cs: seq<seq<byte>>)
    ensures TotalAdvance(reader, cs) == Advance(reader, Flatten(cs))
  {
    if cs != [] {
      ChunkingInvariance(reader, cs[..|cs| - 1]);
      AdvanceAppend(reader, Flatten(cs[..|cs| - 1]), cs[|cs| - 1]);
    }
  }

  /** Every chunk is non-empty and at most `limit` bytes long. */
  predicate ChunksWithin(cs: seq<seq<byte>>, limit: nat)
  {
    forall i :: 0 <= i < |cs| ==> 0 < |cs[i]| <= limit
  }
}
