/** The byte-level writer and reader the networking layer frames its packets
    with (`NetDataWriter.Put(int)` / `NetDataReader.GetInt`): a C# `int` is
    four bytes, least significant first, two's complement. */
module Wire {
  import opened NetTypes

  const TwoTo32: int := 0x1_0000_0000

  /** The four bytes `Put(int)` appends for `x`. */
  function EncodeInt32(x: int32): (b: seq<byte>)
    ensures |b| == 4
  {
    var u := if x < 0 then x + TwoTo32 else x;
    var q1 := u / 0x100;
    var q2 := q1 / 0x100;
    var q3 := q2 / 0x100;
    [u % 0x100, q1 % 0x100, q2 % 0x100, q3 % 0x100]
  }

  /** The unsigned value of the first four bytes of `b`, least significant first. */
  function Unsigned32(b: seq<byte>): (u: int)
    requires |b| >= 4
    ensures 0 <= u < TwoTo32
  {
    var b0, b1, b2, b3: int := b[0], b[1], b[2], b[3];
    b0 + 0x100 * (b1 + 0x100 * (b2 + 0x100 * b3))
  }

  /** What `GetInt` reads from the front of `b`; `None` when fewer than four bytes remain. */
  function DecodeInt32(b: seq<byte>): (r: Option<int32>)
    ensures r.Some? <==> |b| >= 4
  {
    if |b| < 4 then None
    else
      var u := Unsigned32(b);
      Some(if u > MaxInt32 then u - TwoTo32 else u)
  }

  /** Four bytes holding the base-256 digits of `u`, least significant first, read back as `u`. */
  lemma DigitsRoundTrip(u: int, b: seq<byte>)
    requires 0 <= u < TwoTo32 && |b| >= 4
    requires b[0] == u % 0x100 && b[1] == (u / 0x100) % 0x100
    requires b[2] == (u / 0x100 / 0x100) % 0x100 && b[3] == (u / 0x100 / 0x100 / 0x100) % 0x100
    ensures Unsigned32(b) == u
  {
    var q1 := u / 0x100;
    var q2 := q1 / 0x100;
    var q3 := q2 / 0x100;
    assert u == u % 0x100 + 0x100 * q1;
    assert q1 == q1 % 0x100 + 0x100 * q2;
    assert q2 == q2 % 0x100 + 0x100 * q3;
    assert q3 < 0x100;
  }

  /** Reading back what `Put(int)` wrote yields the same integer, whatever follows it. */
  lemma DecodeEncodeInt32(x: int32, rest: seq<byte>)
    ensures DecodeInt32(EncodeInt32(x) + rest) == Some(x)
  {
    var u := if x < 0 then x + TwoTo32 else x;
    var b := EncodeInt32(x) + rest;
    assert b[..4] == EncodeInt32(x);
    DigitsRoundTrip(u, b);
  }

  /** Every four-byte group is the encoding of the integer it decodes to: the encoding is onto. */
  lemma EncodeDecodeInt32(b: seq<byte>)
    requires |b| >= 4
    ensures DecodeInt32(b).Some? && EncodeInt32(DecodeInt32(b).value) == b[..4]
  {
    var u := Unsigned32(b);
    var x := DecodeInt32(b).value;
    assert (if x < 0 then x + TwoTo32 else x) == u;
    var q1 := u / 0x100;
    var q2 := q1 / 0x100;
    var q3 := q2 / 0x100;
    var b1, b2, b3: int := b[1], b[2], b[3];
    assert q1 == b1 + 0x100 * (b2 + 0x100 * b3);
    assert q2 == b2 + 0x100 * b3;
    assert q3 == b3;
    assert EncodeInt32(x) == [b[0], b[1], b[2], b[3]];
  }

  /** A `NetDataWriter`: a growable byte buffer. */
  class Writer {
    var data: seq<byte>

    constructor ()
      ensures data == []
    {
      data := [];
    }

    /** `Reset`: the buffer is emptied. */
    method Reset()
      modifies this
      ensures data == []
    {
      data := [];
    }

    /** `Put(int)`: appends the four-byte encoding. */
    method PutInt(x: int32)
      modifies this
      ensures data == old(data) + EncodeInt32(x)
    {
      data := data + EncodeInt32(x);
    }

    /** `Put(byte[], offset, length)`: appends the bytes unchanged. */
    method PutBytes(b: seq<byte>)
      modifies this
      ensures data == old(data) + b
    {
      data := data + b;
    }
  }

  /** A `NetDataReader`: a byte source and a read position. */
  class Reader {
    var source: seq<byte>
    var position: nat

    ghost predicate Valid()
      reads this
    {
      position <= |source|
    }

    constructor (source: seq<byte>)
      ensures Valid() && this.source == source && position == 0
    {
      this.source := source;
      position := 0;
    }

    /** `SetSource`: reads start over from the front of a new byte source. */
    method SetSource(b: seq<byte>)
      modifies this
      ensures Valid() && source == b && position == 0
    {
      source := b;
      position := 0;
    }

    /** The bytes not read yet. */
    function Remaining(): (r: seq<byte>)
      reads this
      requires Valid()
      ensures |r| == |source| - position
    {
      source[position..]
    }

    /** `GetInt`: reads four bytes, or fails when fewer remain (position unchanged). */
    method GetInt() returns (r: Result<int32>)
      requires Valid()
      modifies this
      ensures Valid() && source == old(source)
      ensures r.Success? <==> |old(Remaining())| >= 4
      ensures r.Success? ==> Some(r.value) == DecodeInt32(old(Remaining())) && position == old(position) + 4
      ensures r.Failure? ==> r.error == ReadPastEnd && position == old(position)
    {
      var d := DecodeInt32(source[position..]);
      if d.None? {
        return Failure(ReadPastEnd);
      }
      position := position + 4;
      r := Success(d.value);
    }

    /** Advances past `n` bytes that an element reader consumed. */
    method Skip(n: nat)
      requires Valid() && position + n <= |source|
      modifies this
      ensures Valid() && source == old(source) && position == old(position) + n
    {
      position := position + n;
    }
  }
}
