/** The binary layout of a mesh channel as the mesh server sends it: a one-byte element type
    tag, the channel's element count and width as 8-byte unsigned integers, then the payload
    from byte 17 on. Multi-byte integers are read in little-endian order. */
module ByteData {
  import opened Wrappers

  newtype byte = x: int | 0 <= x < 0x100
  newtype u32 = x: int | 0 <= x < 0x1_0000_0000
  newtype u64 = x: int | 0 <= x < 0x1_0000_0000_0000_0000

  /** An element type tag. The source stores it in a signed `char` and compares it with the
      non-negative enumerators of its element type, so only tags below 128 can ever match. */
  type TypeTag = b: byte | b < 0x80

  /** The enumerator values of the element types; their numeric values are fixed by the
      client's header, and nothing in this model depends on them. They are not constrained
      to differ, so in this model the two tags may coincide. */
  const FloatType: TypeTag
  const UintType: TypeTag

  /** Tag, size and width occupy bytes 0 .. 16; the payload starts at this offset. */
  const HeaderLength: nat := 17

  /** The length below which parseByteDataString reports failure. */
  const ParseGuardLength: nat := 10

  /** A decoded header together with the bytes that follow it. */
  datatype ByteData = ByteData(tag: byte, size: u64, width: u64, payload: seq<byte>)

  /** A channel: `numElements` elements of `width` components each, stored row by row. */
  datatype Channel<T> = Channel(numElements: nat, width: nat, data: seq<T>)

  ghost predicate ValidChannel<T>(c: Channel<T>)
  {
    |c.data| == c.numElements * c.width
  }

  function Pow256(k: nat): (p: nat)
    ensures p > 0
  {
    if k == 0 then 1 else 0x100 * Pow256(k - 1)
  }

  /** The unsigned value of `s`, least significant byte first. */
  function LittleEndian(s: seq<byte>): (n: nat)
    ensures n < Pow256(|s|)
  {
    if s == [] then 0 else s[0] as nat + 0x100 * LittleEndian(s[1..])
  }

  /** The `k`-byte little-endian encoding of `n`. */
  function ToLittleEndian(n: nat, k: nat): (s: seq<byte>)
    requires n < Pow256(k)
    ensures |s| == k
  {
    if k == 0 then [] else [(n % 0x100) as byte] + ToLittleEndian(n / 0x100, k - 1)
  }

  lemma {:induction false} LittleEndianOfEncoding(n: nat, k: nat)
    requires n < Pow256(k)
    ensures LittleEndian(ToLittleEndian(n, k)) == n
  {
    if k > 0 {
      LittleEndianOfEncoding(n / 0x100, k - 1);
      assert ToLittleEndian(n, k)[1..] == ToLittleEndian(n / 0x100, k - 1);
    }
  }

  lemma {:induction false} EncodingOfLittleEndian(s: seq<byte>)
    ensures ToLittleEndian(LittleEndian(s), |s|) == s
  {
    if s != [] {
      var n := LittleEndian(s);
      assert n % 0x100 == s[0] as nat && n / 0x100 == LittleEndian(s[1..]);
      EncodingOfLittleEndian(s[1..]);
    }
  }

  function U64At(s: seq<byte>, at: nat): u64
    requires at + 8 <= |s|
  {
    assert Pow256(8) == 0x1_0000_0000_0000_0000;
    LittleEndian(s[at..at + 8]) as u64
  }

  /** The success flag of parseByteDataString as written: it fails only below 10 bytes,
      although it reads the whole 17-byte header. */
  predicate ParseByteDataStringSucceeds(s: seq<byte>)
  {
    |s| >= ParseGuardLength
  }

  /** The guard admits inputs that are shorter than the header it then reads. */
  lemma GuardAdmitsShortHeader()
    ensures var s := seq(ParseGuardLength, _ => 0 as byte);
            ParseByteDataStringSucceeds(s) && |s| < HeaderLength
  {
  }

  /** Every response a caller hands to the parser is longer than the header, and on those
      the guard as written and the header-length guard agree. */
  lemma GuardsAgreeOnResponses(s: seq<byte>)
    requires |s| > HeaderLength
    ensures ParseByteDataStringSucceeds(s) && ParseByteData(s).Some?
  {
  }

  /** The header and payload of `s`, or nothing when `s` is too short to hold a header. */
  function ParseByteData(s: seq<byte>): (r: Option<ByteData>)
    ensures r.Some? <==> HeaderLength <= |s|
    ensures r.Some? ==> |r.value.payload| == |s| - HeaderLength
  {
    if |s| < HeaderLength then None
    else Some(ByteData(s[0], U64At(s, 1), U64At(s, 9), s[HeaderLength..]))
  }

  /** The byte string of a header and payload, the inverse of ParseByteData. */
  function EncodeByteData(d: ByteData): (s: seq<byte>)
    ensures |s| == HeaderLength + |d.payload|
  {
    [d.tag] + ToLittleEndian(d.size as nat, 8) + ToLittleEndian(d.width as nat, 8) + d.payload
  }

  lemma ParseEncoded(d: ByteData)
    ensures ParseByteData(EncodeByteData(d)) == Some(d)
  {
    var s := EncodeByteData(d);
    assert s[1..9] == ToLittleEndian(d.size as nat, 8);
    assert s[9..17] == ToLittleEndian(d.width as nat, 8);
    assert s[HeaderLength..] == d.payload;
    LittleEndianOfEncoding(d.size as nat, 8);
    LittleEndianOfEncoding(d.width as nat, 8);
  }

  lemma EncodeParsed(s: seq<byte>)
    requires HeaderLength <= |s|
    ensures EncodeByteData(ParseByteData(s).value) == s
  {
    EncodingOfLittleEndian(s[1..9]);
    EncodingOfLittleEndian(s[9..17]);
    assert s == [s[0]] + s[1..9] + s[9..17] + s[HeaderLength..];
  }

  /** The first `count` 4-byte little-endian words of `p`. */
  function Words(p: seq<byte>, count: nat): (ws: seq<u32>)
    requires 4 * count <= |p|
    ensures |ws| == count
    ensures forall i | 0 <= i < count :: ws[i] as nat == LittleEndian(p[4 * i..4 * i + 4])
  {
    if count == 0 then []
    else
      assert Pow256(4) == 0x1_0000_0000;
      assert forall i | 1 <= i < count :: p[4..][4 * (i - 1)..4 * (i - 1) + 4] == p[4 * i..4 * i + 4];
      [LittleEndian(p[..4]) as u32] + Words(p[4..], count - 1)
  }

  /** The bytes of a sequence of words, 4 bytes each. */
  function WordBytes(ws: seq<u32>): (p: seq<byte>)
    ensures |p| == 4 * |ws|
  {
    if ws == [] then []
    else
      assert Pow256(4) == 0x1_0000_0000;
      ToLittleEndian(ws[0] as nat, 4) + WordBytes(ws[1..])
  }

  lemma {:induction false} WordsOfWordBytes(ws: seq<u32>, rest: seq<byte>)
    ensures Words(WordBytes(ws) + rest, |ws|) == ws
  {
    if ws != [] {
      assert Pow256(4) == 0x1_0000_0000;
      var p := WordBytes(ws) + rest;
      LittleEndianOfEncoding(ws[0] as nat, 4);
      assert p[..4] == ToLittleEndian(ws[0] as nat, 4);
      assert p[4..] == WordBytes(ws[1..]) + rest;
      WordsOfWordBytes(ws[1..], rest);
    }
  }

  /** The words of a payload are those found at offset 17 of the whole response. */
  lemma PayloadWords(s: seq<byte>, n: nat)
    requires HeaderLength + 4 * n <= |s|
    ensures forall i | 0 <= i < n ::
              Words(s[HeaderLength..], n)[i] as nat == LittleEndian(s[HeaderLength + 4 * i..HeaderLength + 4 * i + 4])
  {
    var ws := Words(s[HeaderLength..], n);
    forall i | 0 <= i < n
      ensures ws[i] as nat == LittleEndian(s[HeaderLength + 4 * i..HeaderLength + 4 * i + 4])
    {
      assert s[HeaderLength..][4 * i..4 * i + 4] == s[HeaderLength + 4 * i..HeaderLength + 4 * i + 4];
    }
  }

  /** Whether a response that a getter would decode with `tag` carries the `size * width`
      elements of `elementBytes` bytes each that the getter copies from it. The source never
      checks this; copying past the end of the response is undefined. */
  predicate PayloadCovers(response: Option<seq<byte>>, tag: TypeTag, elementBytes: nat)
  {
    response.Some? && |response.value| > HeaderLength && response.value[0] == tag ==>
      var s := response.value;
      HeaderLength + elementBytes * (LittleEndian(s[1..9]) * LittleEndian(s[9..17])) <= |s|
  }

  /** The channel of 4-byte elements that a response describes: the header's size and width,
      and the `size * width` elements that start at offset 17. */
  function PayloadChannel(s: seq<byte>): (c: Channel<u32>)
    requires HeaderLength <= |s|
    requires HeaderLength + 4 * (LittleEndian(s[1..9]) * LittleEndian(s[9..17])) <= |s|
    ensures c.numElements == LittleEndian(s[1..9]) && c.width == LittleEndian(s[9..17])
    ensures ValidChannel(c)
    ensures forall i | 0 <= i < |c.data| ::
              c.data[i] as nat == LittleEndian(s[HeaderLength + 4 * i..HeaderLength + 4 * i + 4])
  {
    var d := ParseByteData(s).value;
    var n := d.size as nat * d.width as nat;
    PayloadWords(s, n);
    Channel(d.size as nat, d.width as nat, Words(d.payload, n))
  }

  /** A fetched response decoded as a channel of 4-byte elements: it is accepted exactly when
      it is longer than the header and carries `tag`. */
  function DecodeWordChannel(response: Option<seq<byte>>, tag: TypeTag): (r: Option<Channel<u32>>)
    requires PayloadCovers(response, tag, 4)
    ensures r.Some? <==> response.Some? && |response.value| > HeaderLength && response.value[0] == tag
    ensures r.Some? ==> r.value == PayloadChannel(response.value)
  {
    if response.Some? && |response.value| > HeaderLength && ParseByteDataStringSucceeds(response.value) then
      var s := response.value;
      if ParseByteData(s).value.tag == tag then Some(PayloadChannel(s)) else None
    else None
  }

  /** The response the server sends for a channel: its header and its elements. */
  function EncodeWordChannel(c: Channel<u32>, tag: TypeTag): (s: seq<byte>)
    requires ValidChannel(c) && c.numElements < Pow256(8) && c.width < Pow256(8)
  {
    assert Pow256(8) == 0x1_0000_0000_0000_0000;
    EncodeByteData(ByteData(tag as byte, c.numElements as u64, c.width as u64, WordBytes(c.data)))
  }

  /** Decoding what the server encodes gives back the channel, whenever the response is
      longer than a bare header. */
  lemma DecodeEncodedWordChannel(c: Channel<u32>, tag: TypeTag)
    requires ValidChannel(c) && c.numElements < Pow256(8) && c.width < Pow256(8)
    requires |c.data| > 0
    ensures PayloadCovers(Some(EncodeWordChannel(c, tag)), tag, 4)
    ensures DecodeWordChannel(Some(EncodeWordChannel(c, tag)), tag) == Some(c)
  {
    assert Pow256(8) == 0x1_0000_0000_0000_0000;
    var d := ByteData(tag as byte, c.numElements as u64, c.width as u64, WordBytes(c.data));
    ParseEncoded(d);
    WordsOfWordBytes(c.data, []);
    assert WordBytes(c.data) + [] == WordBytes(c.data);
  }
}
