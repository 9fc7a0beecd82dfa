/** Conversion of small integers to bytes. */
module Bytes {
  /** A byte value survives the trip through `bv8`. */
  lemma ByteValue(x: int)
    requires 0 <= x < 256
    ensures (x as bv8) as int == x
  {
  }
}

/** `WavFormat`: reads the 44-byte header at the start of a WAV stream and takes the channel
    count, the sample rate and the sample width from it. The stream is a `MemoryStream` over
    a byte array, the stream `FromBytes` builds. */
module WavFormats {
  import opened Errors
  import opened Integers
  import Bytes

  /** Size of the header `IsWav` reads. */
  const HeaderSize: nat := 44

  /** A `MemoryStream` over a fixed byte array (a .NET array holds fewer than 2^31 bytes),
      read from `Position` on. */
  class MemoryStream {
    const Bytes: seq<bv8>
    var Position: nat

    ghost predicate Valid()
      reads this
    {
      |Bytes| < TWO_31 && Position <= |Bytes|
    }

    constructor (bytes: seq<bv8>)
      requires |bytes| < TWO_31
      ensures Valid()
      ensures Bytes == bytes && Position == 0
    {
      Bytes := bytes;
      Position := 0;
    }

    /** `Stream.Length`: the whole array, wherever the position is. */
    function Length(): (length: Int64)
      reads this
      requires Valid()
      ensures length == |Bytes|
    {
      |Bytes|
    }

    /** `Stream.Read`: copies up to `count` bytes from the position into `buffer` at `offset`,
        advances the position past them and returns how many were copied. */
    method Read(buffer: array<bv8>, offset: nat, count: nat) returns (read: nat)
      requires Valid()
      requires offset + count <= buffer.Length
      modifies this, buffer
      ensures Valid()
      ensures read == if count <= |Bytes| - old(Position) then count else |Bytes| - old(Position)
      ensures Position == old(Position) + read
      ensures buffer[..offset] == old(buffer[..offset])
      ensures buffer[offset..offset + read] == Bytes[old(Position)..Position]
      ensures buffer[offset + read..] == old(buffer[offset + read..])
    {
      read := if count <= |Bytes| - Position then count else |Bytes| - Position;
      var i := 0;
      while i < read
        invariant 0 <= i <= read
        invariant Position == old(Position)
        invariant buffer[..offset] == old(buffer[..offset])
        invariant buffer[offset..offset + i] == Bytes[Position..Position + i]
        invariant buffer[offset + i..] == old(buffer[offset + i..])
      {
        buffer[offset + i] := Bytes[Position + i];
        i := i + 1;
      }
      Position := Position + read;
    }
  }

  /** The decoded header. `Length` is the size of the audio data. */
  datatype WavFormat = WavFormat(SampleRate: Int32, Channels: Int16, BitsPerSample: Int16, Length: Int64)

  /** Two bytes as an unsigned little-endian number. */
  function LittleEndian16(b0: bv8, b1: bv8): nat
  {
    b0 as int + 256 * (b1 as int)
  }

  /** Four bytes as an unsigned little-endian number. */
  function LittleEndian32(b0: bv8, b1: bv8, b2: bv8, b3: bv8): nat
  {
    b0 as int + 256 * (b1 as int) + 65536 * (b2 as int) + 16777216 * (b3 as int)
  }

  /** The source's `b0 | b1 << 8` on `int`s is the little-endian number. */
  lemma BitwiseAssembly16(b0: bv8, b1: bv8)
    ensures ((b0 as bv32) | ((b1 as bv32) << 8)) as int == LittleEndian16(b0, b1)
  {
  }

  /** The source's `b0 | b1 << 8 | b2 << 16 | b3 << 24` on `int`s has the 32-bit pattern of
      the little-endian number. */
  lemma BitwiseAssembly32(b0: bv8, b1: bv8, b2: bv8, b3: bv8)
    ensures ((b0 as bv32) | ((b1 as bv32) << 8) | ((b2 as bv32) << 16) | ((b3 as bv32) << 24)) as int
            == LittleEndian32(b0, b1, b2, b3)
  {
  }

  /** The `short` at `header[i..i+2]`: the unchecked cast of the little-endian value. */
  function Int16At(header: seq<bv8>, i: nat): Int16
    requires i + 2 <= |header|
  {
    WrapInt16(LittleEndian16(header[i], header[i + 1]))
  }

  /** The `int` at `header[i..i+4]`: the 32-bit pattern read as two's complement. */
  function Int32At(header: seq<bv8>, i: nat): Int32
    requires i + 4 <= |header|
  {
    WrapInt32(LittleEndian32(header[i], header[i + 1], header[i + 2], header[i + 3]))
  }

  /** The fields `FromStream` takes from a header of a stream `streamLength` bytes long.
      Nothing else of the header is looked at: no `RIFF` or `WAVE` tag is checked. */
  function DecodeHeader(header: seq<bv8>, streamLength: int): (w: WavFormat)
    requires |header| == HeaderSize
    requires HeaderSize <= streamLength < TWO_31
    ensures w.Length == streamLength - HeaderSize >= 0
  {
    WavFormat(Int32At(header, 24), Int16At(header, 22), Int16At(header, 34), streamLength - HeaderSize)
  }

  /** `IsWav`: a fresh 44-byte buffer filled from the stream; a header is there exactly when
      44 bytes remain. */
  method IsWav(source: MemoryStream) returns (isWav: bool, header: array<bv8>)
    requires source.Valid()
    modifies source
    ensures source.Valid()
    ensures fresh(header) && header.Length == HeaderSize
    ensures isWav <==> |source.Bytes| - old(source.Position) >= HeaderSize
    ensures isWav ==> header[..] == source.Bytes[old(source.Position)..old(source.Position) + HeaderSize]
    ensures isWav ==> source.Position == old(source.Position) + HeaderSize
    ensures !isWav ==> source.Position == |source.Bytes|
  {
    header := new bv8[HeaderSize];
    var read := source.Read(header, 0, HeaderSize);
    isWav := read == HeaderSize;
    if isWav {
      assert header[..] == header[0..HeaderSize];
    }
  }

  /** `FromStream`: the fields of the header at the stream's position; a stream with fewer
      than 44 bytes left throws. `Length` counts the whole stream, not only what follows the
      header. */
  method FromStream(source: MemoryStream) returns (r: Result<WavFormat>)
    requires source.Valid()
    modifies source
    ensures source.Valid()
    ensures r.Ok? <==> |source.Bytes| - old(source.Position) >= HeaderSize
    ensures r.Throw? ==> r.error == Argument("")
    ensures r.Ok? ==> r.value == DecodeHeader(source.Bytes[old(source.Position)..old(source.Position) + HeaderSize], |source.Bytes|)
  {
    var isWav, header := IsWav(source);
    if !isWav {
      return Throw(Argument(""));
    }
    var channels := Int16At(header[..], 22);
    var sampleRate := Int32At(header[..], 24);
    var bitsPerSample := Int16At(header[..], 34);
    var length := source.Length() - HeaderSize;
    r := Ok(WavFormat(sampleRate, channels, bitsPerSample, length));
  }

  /** `FromBytes`: `FromStream` over a new stream on `bytes`; any 44 bytes or more decode. */
  method FromBytes(bytes: seq<bv8>) returns (r: Result<WavFormat>)
    requires |bytes| < TWO_31
    ensures r == if |bytes| >= HeaderSize then Ok(DecodeHeader(bytes[..HeaderSize], |bytes|)) else Throw(Argument(""))
  {
    var source := new MemoryStream(bytes);
    r := FromStream(source);
  }

  /** The unsigned reading of a `short`'s 16 bits. */
  function Unsigned16(v: Int16): (u: nat)
    ensures u < TWO_16
  {
    if v < 0 then v + TWO_16 else v
  }

  /** The unsigned reading of an `int`'s 32 bits. */
  function Unsigned32(v: Int32): (u: nat)
    ensures u < TWO_32
  {
    if v < 0 then v + TWO_32 else v
  }

  /** Two bytes, low byte first, of an unsigned 16-bit number. */
  function BytesOf16(u: nat): (bytes: seq<bv8>)
    requires u < TWO_16
    ensures |bytes| == 2
  {
    [(u % 256) as bv8, (u / 256) as bv8]
  }

  /** Four bytes, low byte first, of an unsigned 32-bit number. */
  function BytesOf32(u: nat): (bytes: seq<bv8>)
    requires u < TWO_32
    ensures |bytes| == 4
  {
    var q1 := u / 256;
    var q2 := q1 / 256;
    [(u % 256) as bv8, (q1 % 256) as bv8, (q2 % 256) as bv8, (q2 / 256) as bv8]
  }

  /** The two bytes C# stores for a `short`, low byte first. */
  function EncodeInt16(v: Int16): (bytes: seq<bv8>)
    ensures |bytes| == 2
  {
    BytesOf16(Unsigned16(v))
  }

  /** The four bytes C# stores for an `int`, low byte first. */
  function EncodeInt32(v: Int32): (bytes: seq<bv8>)
    ensures |bytes| == 4
  {
    BytesOf32(Unsigned32(v))
  }


  /** Low byte and high byte of an unsigned 16-bit number make it up again. */
  lemma Unsigned16RoundTrip(u: nat)
    requires u < TWO_16
    ensures LittleEndian16(BytesOf16(u)[0], BytesOf16(u)[1]) == u
  {
    Bytes.ByteValue(u % 256);
    Bytes.ByteValue(u / 256);
  }

  /** The four bytes of an unsigned 32-bit number, low byte first, make it up again. */
  lemma Unsigned32RoundTrip(u: nat)
    requires u < TWO_32
    ensures var e := BytesOf32(u); LittleEndian32(e[0], e[1], e[2], e[3]) == u
  {
    var q1 := u / 256;
    var q2 := q1 / 256;
    var q3 := q2 / 256;
    Bytes.ByteValue(u % 256);
    Bytes.ByteValue(q1 % 256);
    Bytes.ByteValue(q2 % 256);
    Bytes.ByteValue(q3);
    assert u == u % 256 + 256 * q1;
    assert q1 == q1 % 256 + 256 * q2;
    assert q2 == q2 % 256 + 256 * q3;
  }

  /** The unchecked cast takes the unsigned reading of a `short`'s bits back to the `short`. */
  lemma WrapsBack16(v: Int16)
    ensures WrapInt16(Unsigned16(v)) == v
  {
  }

  /** The unchecked cast takes the unsigned reading of an `int`'s bits back to the `int`. */
  lemma WrapsBack32(v: Int32)
    ensures WrapInt32(Unsigned32(v)) == v
  {
  }

  /** A `short` written little-endian reads back as itself. */
  lemma Int16RoundTrip(header: seq<bv8>, i: nat, v: Int16)
    requires i + 2 <= |header| && header[i..i + 2] == EncodeInt16(v)
    ensures Int16At(header, i) == v
  {
    var e := EncodeInt16(v);
    assert header[i] == e[0] && header[i + 1] == e[1] by {
      assert header[i..i + 2][0] == header[i] && header[i..i + 2][1] == header[i + 1];
    }
    Unsigned16RoundTrip(Unsigned16(v));
    WrapsBack16(v);
  }

  /** An `int` written little-endian reads back as itself. */
  lemma Int32RoundTrip(header: seq<bv8>, i: nat, v: Int32)
    requires i + 4 <= |header| && header[i..i + 4] == EncodeInt32(v)
    ensures Int32At(header, i) == v
  {
    var e := EncodeInt32(v);
    assert header[i] == e[0] && header[i + 1] == e[1] && header[i + 2] == e[2] && header[i + 3] == e[3] by {
      var slice := header[i..i + 4];
      assert slice[0] == header[i] && slice[1] == header[i + 1] && slice[2] == header[i + 2] && slice[3] == header[i + 3];
    }
    Unsigned32RoundTrip(Unsigned32(v));
    WrapsBack32(v);
  }

  /** Whatever else the header holds, a header carrying a format's fields at offsets 22, 24
      and 34 decodes to that format. */
  lemma DecodeHeaderRoundTrip(header: seq<bv8>, w: WavFormat)
    requires |header| == HeaderSize
    requires 0 <= w.Length < TWO_31 - HeaderSize
    requires header[22..24] == EncodeInt16(w.Channels)
    requires header[24..28] == EncodeInt32(w.SampleRate)
    requires header[34..36] == EncodeInt16(w.BitsPerSample)
    ensures DecodeHeader(header, w.Length + HeaderSize) == w
  {
    Int16RoundTrip(header, 22, w.Channels);
    Int32RoundTrip(header, 24, w.SampleRate);
    Int16RoundTrip(header, 34, w.BitsPerSample);
  }
}
