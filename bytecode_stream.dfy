/** The binary stream through which the engine saves a compiled module to a
    byte vector and loads one back from a fixed buffer. */
module BytecodeStream {
  import opened Common

  /** A `std::vector<unsigned char>` that a write-mode stream appends to. */
  class ByteVector {
    var bytes: seq<byte>

    constructor ()
      ensures bytes == []
    {
      bytes := [];
    }
  }

  /** `CBytecodeStream`: `out` is the vector written to (null in read mode);
      `input` is the buffer read from (None in write mode), `inSize` the
      number of bytes it may be read up to and `offset` the read cursor. */
  class Stream {
    var out: ByteVector?
    var input: Option<seq<byte>>
    var inSize: nat
    var offset: nat

    /** The input size never exceeds the buffer, and the cursor never passes
        the input size. */
    ghost predicate Valid()
      reads this
    {
      && (input.Some? ==> inSize <= |input.value|)
      && offset <= inSize
    }

    /** A stream whose `m_pOut` points at `v`. */
    constructor ForWrite(v: ByteVector)
      ensures Valid()
      ensures out == v && input == None && inSize == 0 && offset == 0
    {
      out, input, inSize, offset := v, None, 0, 0;
    }

    /** A stream whose `m_pIn` points at `data` and `m_InSize` is its length. */
    constructor ForRead(data: seq<byte>)
      ensures Valid()
      ensures out == null && input == Some(data) && inSize == |data| && offset == 0
    {
      out, input, inSize, offset := null, Some(data), |data|, 0;
    }

    /** Appends `data` to the output vector; fails without a vector. */
    method Write(data: Chunk) returns (r: int)
      requires Valid()
      modifies out
      ensures Valid()
      ensures out == null ==> r == AS_ERROR
      ensures out != null ==> r == AS_SUCCESS && out.bytes == old(out.bytes) + data
    {
      if out == null {
        return AS_ERROR;
      }
      out.bytes := out.bytes + data;
      return AS_SUCCESS;
    }

    /** Hands the next `size` input bytes to the engine as `chunk` and moves
        the cursor past them; fails, leaving the cursor where it was, without
        an input buffer or when fewer than `size` bytes are left. */
    method Read(size: AsUint) returns (r: int, chunk: seq<byte>)
      requires Valid()
      modifies this`offset
      ensures Valid()
      ensures r == AS_SUCCESS <==> input.Some? && old(offset) + size <= inSize
      ensures r == AS_SUCCESS ==>
                && offset == old(offset) + size
                && chunk == input.value[old(offset)..old(offset) + size]
      ensures r != AS_SUCCESS ==> r == AS_ERROR && offset == old(offset) && chunk == []
    {
      if input.None? {
        return AS_ERROR, [];
      }
      if offset + size > inSize {
        return AS_ERROR, [];
      }
      chunk := input.value[offset..offset + size];
      offset := offset + size;
      r := AS_SUCCESS;
    }
  }

  /** The bytes of consecutive writes, in order. */
  function Flatten(chunks: seq<seq<byte>>): seq<byte>
  {
    if chunks == [] then [] else chunks[0] + Flatten(chunks[1..])
  }

  /** Total number of bytes asked for by a sequence of reads. */
  function Total(sizes: seq<AsUint>): nat
  {
    if sizes == [] then 0 else sizes[0] + Total(sizes[1..])
  }

  /** The sizes of a sequence of written chunks. */
  function Sizes(chunks: seq<Chunk>): (r: seq<AsUint>)
    ensures |r| == |chunks|
    ensures forall i :: 0 <= i < |chunks| ==> r[i] == |chunks[i]|
  {
    seq(|chunks|, i requires 0 <= i < |chunks| => |chunks[i]| as AsUint)
  }

  /** The chunks that successive `Read`s of `sizes` deliver from a read-mode
      stream over `data` whose cursor is at `offset`; None once a read fails. */
  function ReadSequence(data: seq<byte>, offset: nat, sizes: seq<AsUint>): (r: Option<seq<seq<byte>>>)
    requires offset <= |data|
    decreases |sizes|
    ensures r.Some? <==> offset + Total(sizes) <= |data|
    ensures r.Some? ==> |r.value| == |sizes|
  {
    if sizes == [] then Some([])
    else if offset + sizes[0] > |data| then None
    else match ReadSequence(data, offset + sizes[0], sizes[1..])
      case None => None
      case Some(rest) => Some([data[offset..offset + sizes[0]]] + rest)
  }

  /** `r` with the chunks `done` delivered before it. */
  function Prepend(done: seq<seq<byte>>, r: Option<seq<seq<byte>>>): Option<seq<seq<byte>>>
  {
    match r
    case None => None
    case Some(rest) => Some(done + rest)
  }

  lemma PrependTwice(a: seq<seq<byte>>, b: seq<seq<byte>>, r: Option<seq<seq<byte>>>)
    ensures Prepend(a, Prepend(b, r)) == Prepend(a + b, r)
  {
    if r.Some? {
      assert a + (b + r.value) == (a + b) + r.value;
    }
  }

  /** One read of a sequence: it fails when it would pass the end, and
      otherwise delivers the next bytes before the rest of the sequence. */
  lemma ReadSequenceStep(data: seq<byte>, offset: nat, sizes: seq<AsUint>)
    requires offset <= |data| && sizes != []
    ensures offset + sizes[0] > |data| ==> ReadSequence(data, offset, sizes).None?
    ensures offset + sizes[0] <= |data| ==>
              ReadSequence(data, offset, sizes)
              == Prepend([data[offset..offset + sizes[0]]], ReadSequence(data, offset + sizes[0], sizes[1..]))
  {
  }

  /** Writing one more chunk extends the written bytes by that chunk. */
  lemma {:induction false} FlattenAppend(chunks: seq<seq<byte>>, c: seq<byte>)
    ensures Flatten(chunks + [c]) == Flatten(chunks) + c
  {
    if chunks == [] {
      assert [] + [c] == [c];
    } else {
      assert (chunks + [c])[1..] == chunks[1..] + [c];
      FlattenAppend(chunks[1..], c);
    }
  }

  /** Bytes written chunk by chunk read back identically, chunk by chunk,
      wherever they sit in the buffer. */
  lemma {:induction false} ReadBackWritten(prefix: seq<byte>, chunks: seq<Chunk>, suffix: seq<byte>)
    ensures ReadSequence(prefix + Flatten(chunks) + suffix, |prefix|, Sizes(chunks)) == Some(chunks)
    decreases |chunks|
  {
    var data := prefix + Flatten(chunks) + suffix;
    if chunks != [] {
      var c := chunks[0];
      var sizes := Sizes(chunks);
      assert sizes[1..] == Sizes(chunks[1..]);
      assert data == (prefix + c) + Flatten(chunks[1..]) + suffix;
      assert data[|prefix|..|prefix| + |c|] == c;
      ReadBackWritten(prefix + c, chunks[1..], suffix);
      assert [c] + chunks[1..] == chunks;
    }
  }

  /** The save/load round trip: an image produced by writes is read back
      as the same chunks when the reads ask for the same sizes. */
  lemma SaveLoadRoundTrip(chunks: seq<Chunk>)
    ensures ReadSequence(Flatten(chunks), 0, Sizes(chunks)) == Some(chunks)
  {
    ReadBackWritten([], chunks, []);
    assert [] + Flatten(chunks) + [] == Flatten(chunks);
  }
}
