/** The last bytes of a tool's error output, cut on a character boundary. Text is a sequence of
    Unicode scalar values; its bytes are the UTF-8 encoding of section 3 of RFC 3629. */
module Tail {
  import opened Core

  type Scalar = c: int | 0 <= c < 0xD800 || 0xE000 <= c < 0x11_0000

  function EncodeScalar(c: Scalar): (b: Bytes)
    ensures 1 <= |b| <= 4
    ensures !Continuation(b[0])
    ensures forall i :: 1 <= i < |b| ==> Continuation(b[i])
  {
    if c < 0x80 then [c]
    else if c < 0x800 then [0xC0 + c / 0x40, 0x80 + c % 0x40]
    else if c < 0x1_0000 then [0xE0 + c / 0x1000, 0x80 + c / 0x40 % 0x40, 0x80 + c % 0x40]
    else [0xF0 + c / 0x4_0000, 0x80 + c / 0x1000 % 0x40, 0x80 + c / 0x40 % 0x40, 0x80 + c % 0x40]
  }

  predicate Continuation(b: Byte) {
    0x80 <= b < 0xC0
  }

  function Encode(text: seq<Scalar>): Bytes {
    if text == [] then [] else EncodeScalar(text[0]) + Encode(text[1..])
  }

  /** How many bytes the first one announces. */
  function Width(lead: Byte): nat {
    if lead < 0x80 then 1 else if lead < 0xE0 then 2 else if lead < 0xF0 then 3 else 4
  }

  /** The bits a byte carries after its marker. */
  function Bits(b: Byte, marker: int): int {
    b - marker
  }

  function ScalarOf(b: Bytes): int
    requires 1 <= |b| <= 4
  {
    match |b|
    case 1 => b[0]
    case 2 => Bits(b[0], 0xC0) * 0x40 + Bits(b[1], 0x80)
    case 3 => (Bits(b[0], 0xE0) * 0x40 + Bits(b[1], 0x80)) * 0x40 + Bits(b[2], 0x80)
    case _ =>
      ((Bits(b[0], 0xF0) * 0x40 + Bits(b[1], 0x80)) * 0x40 + Bits(b[2], 0x80)) * 0x40 + Bits(b[3], 0x80)
  }

  function Decode(bytes: Bytes): seq<int> {
    if bytes == [] then []
    else
      var n := Width(bytes[0]);
      if n > |bytes| then [] else [ScalarOf(bytes[..n])] + Decode(bytes[n..])
  }

  lemma Digits(c: nat)
    ensures c / 0x1000 == c / 0x40 / 0x40
    ensures c == c / 0x40 * 0x40 + c % 0x40
  {
  }

  lemma ScalarRoundTrip(c: Scalar)
    ensures |EncodeScalar(c)| == Width(EncodeScalar(c)[0]) && ScalarOf(EncodeScalar(c)) == c
    ensures |EncodeScalar(c)| == if c < 0x80 then 1 else if c < 0x800 then 2 else if c < 0x1_0000 then 3 else 4
  {
    Digits(c);
    if c >= 0x1_0000 {
      Digits(c / 0x40);
      Digits(c / 0x1000);
      assert c / 0x4_0000 == c / 0x1000 / 0x40;
    } else if c >= 0x800 {
      Digits(c / 0x40);
    }
  }

  /** The bytes of a text determine the text. */
  lemma {:induction false} DecodeEncode(text: seq<Scalar>)
    ensures Decode(Encode(text)) == text
  {
    if text != [] {
      var first, bytes := EncodeScalar(text[0]), Encode(text);
      ScalarRoundTrip(text[0]);
      assert bytes[..|first|] == first && bytes[|first|..] == Encode(text[1..]);
      DecodeEncode(text[1..]);
    }
  }

  /** The Unicode White_Space property. */
  predicate IsWhitespace(c: Scalar) {
    || 0x9 <= c <= 0xD || c in {0x20, 0x85, 0xA0, 0x1680} || 0x2000 <= c <= 0x200A
    || c in {0x2028, 0x2029, 0x202F, 0x205F, 0x3000}
  }

  /** The text without its trailing white space. */
  function TrimEnd(text: seq<Scalar>): (r: seq<Scalar>)
    ensures r <= text
    ensures r != [] ==> !IsWhitespace(r[|r| - 1])
    ensures forall i :: |r| <= i < |text| ==> IsWhitespace(text[i])
  {
    if text != [] && IsWhitespace(text[|text| - 1]) then TrimEnd(text[..|text| - 1]) else text
  }

  /** The test the code makes on bytes. */
  predicate IsCharBoundary(bytes: Bytes, i: nat) {
    i == 0 || i == |bytes| || (i < |bytes| && !Continuation(bytes[i]))
  }

  /** What it stands for: some prefix of the text takes exactly `i` bytes. */
  ghost predicate Boundary(text: seq<Scalar>, i: nat) {
    exists k :: 0 <= k <= |text| && |Encode(text[..k])| == i
  }

  lemma {:induction false} EncodeConcat(a: seq<Scalar>, b: seq<Scalar>)
    ensures Encode(a + b) == Encode(a) + Encode(b)
  {
    if a == [] {
      assert a + b == b;
    } else {
      assert (a + b)[1..] == a[1..] + b;
      EncodeConcat(a[1..], b);
    }
  }

  lemma EncodeSplit(text: seq<Scalar>, k: nat)
    requires k <= |text|
    ensures Encode(text) == Encode(text[..k]) + Encode(text[k..])
  {
    assert text == text[..k] + text[k..];
    EncodeConcat(text[..k], text[k..]);
  }

  /** A boundary inside the rest of a text is a boundary of the text, shifted by its first character. */
  lemma BoundaryOfRest(text: seq<Scalar>, i: nat)
    requires text != [] && i >= |EncodeScalar(text[0])|
    ensures Boundary(text, i) <==> Boundary(text[1..], i - |EncodeScalar(text[0])|)
  {
    var first := |EncodeScalar(text[0])|;
    if Boundary(text, i) {
      var k :| 0 <= k <= |text| && |Encode(text[..k])| == i;
      assert k > 0;
      assert text[..k][1..] == text[1..][..k - 1];
      assert |Encode(text[1..][..k - 1])| == i - first;
    }
    if Boundary(text[1..], i - first) {
      var k :| 0 <= k <= |text[1..]| && |Encode(text[1..][..k])| == i - first;
      assert text[..k + 1][1..] == text[1..][..k];
      assert |Encode(text[..k + 1])| == i;
    }
  }

  /** Inside the first character there is no boundary. */
  lemma NoBoundaryInside(text: seq<Scalar>, i: nat)
    requires text != [] && 0 < i < |EncodeScalar(text[0])|
    ensures !Boundary(text, i)
  {
    forall k | 0 < k <= |text|
      ensures |Encode(text[..k])| > i
    {
      assert text[..k][0] == text[0];
    }
    assert text[..0] == [];
  }

  /** The byte test is exact on every text, at every position. */
  lemma {:induction false} ByteTestIsExact(text: seq<Scalar>, i: nat)
    requires i <= |Encode(text)|
    ensures IsCharBoundary(Encode(text), i) <==> Boundary(text, i)
    decreases |text|
  {
    if i == 0 {
      assert |Encode(text[..0])| == 0;
    } else {
      var first := EncodeScalar(text[0]);
      if i < |first| {
        NoBoundaryInside(text, i);
        assert Encode(text)[i] == first[i];
      } else {
        BoundaryOfRest(text, i);
        ByteTestIsExact(text[1..], i - |first|);
        if i < |Encode(text)| {
          assert Encode(text)[i] == Encode(text[1..])[i - |first|];
        }
        if i == |first| && text[1..] != [] {
          assert Encode(text[1..])[0] == EncodeScalar(text[1])[0];
        }
      }
    }
  }

  /** A boundary is never more than three bytes away. */
  lemma {:induction false} BoundaryIsNear(text: seq<Scalar>, i: nat) returns (d: nat)
    requires i <= |Encode(text)|
    ensures d <= 3 && i + d <= |Encode(text)| && Boundary(text, i + d)
    decreases |text|
  {
    if i == 0 {
      d := 0;
      assert |Encode(text[..0])| == 0;
    } else {
      var first := |EncodeScalar(text[0])|;
      if i < first {
        d := first - i;
        assert text[..1][1..] == [];
        assert |Encode(text[..1])| == first;
      } else {
        d := BoundaryIsNear(text[1..], i - first);
        BoundaryOfRest(text, i + d);
      }
    }
  }

  /** `r` is the encoding of the longest suffix of `text` that fits into `limit` bytes. */
  ghost predicate IsLongestSuffix(text: seq<Scalar>, limit: nat, r: Bytes) {
    && |r| <= limit
    && (exists k :: 0 <= k <= |text| && r == Encode(text[k..]))
    && (forall k :: 0 <= k <= |text| && |Encode(text[k..])| <= limit ==> |Encode(text[k..])| <= |r|)
  }

  lemma FirstBoundaryIsLongest(text: seq<Scalar>, limit: nat, from: nat, start: nat)
    requires from == (if |Encode(text)| < limit then 0 else |Encode(text)| - limit)
    requires from <= start <= |Encode(text)| && Boundary(text, start)
    requires forall i: nat :: from <= i < start ==> !Boundary(text, i)
    ensures IsLongestSuffix(text, limit, Encode(text)[start..])
  {
    var bytes := Encode(text);
    var k :| 0 <= k <= |text| && |Encode(text[..k])| == start;
    EncodeSplit(text, k);
    assert bytes[start..] == Encode(text[k..]);
    forall j | 0 <= j <= |text| && |Encode(text[j..])| <= limit
      ensures |Encode(text[j..])| <= |bytes[start..]|
    {
      EncodeSplit(text, j);
      assert Boundary(text, |Encode(text[..j])|);
    }
  }

  /** `advances` counts the turns of the loop. */
  method Tail(text: seq<Scalar>, limit: nat) returns (r: Bytes, advances: nat)
    ensures IsLongestSuffix(TrimEnd(text), limit, r)
    ensures advances <= 3
  {
    ghost var trimmed := TrimEnd(text);
    var bytes := Encode(TrimEnd(text));
    var from := if |bytes| < limit then 0 else |bytes| - limit;
    var start := from;
    advances := 0;
    ghost var d := BoundaryIsNear(trimmed, from);
    ByteTestIsExact(trimmed, from + d);
    while !IsCharBoundary(bytes, start)
      invariant from <= start <= from + d
      invariant advances == start - from
      invariant forall i: nat :: from <= i < start ==> !Boundary(trimmed, i)
      decreases |bytes| - start
    {
      ByteTestIsExact(trimmed, start);
      start := start + 1;
      advances := advances + 1;
    }
    ByteTestIsExact(trimmed, start);
    FirstBoundaryIsLongest(trimmed, limit, from, start);
    r := bytes[start..];
  }
}
