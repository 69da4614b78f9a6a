/** The stored form of an embedding vector: a magic word, the number of dimensions, and one word for each. */
module VectorCodec {
  import opened Common

  type Byte = x: int | 0 <= x < 256

  /** The bits of a 32-bit float; `finite` tells those a valid vector may hold. */
  type Word = x: int | 0 <= x < 0x1_0000_0000

  const MAGIC: seq<Byte> := [71, 84, 77, 86, 69, 67, 48, 49]
  const HEADER := 12
  const MAX_DIMENSIONS := 65536

  const WORDS := 0x1_0000_0000

  /** Validation of a vector: it has entries, all of them finite, and is not zero throughout. */
  predicate ValidVector(v: seq<Word>, finite: Word -> bool, zero: Word -> bool) {
    && |v| >= 1
    && (forall i :: 0 <= i < |v| ==> finite(v[i]))
    && (exists i :: 0 <= i < |v| && !zero(v[i]))
  }

  /** The four bytes of a word, the highest first. */
  function BigEndian(w: Word): seq<Byte> {
    var a := w / 256;
    var b := a / 256;
    [b / 256, b % 256, a % 256, w % 256]
  }

  function FromBigEndian(s: seq<Byte>): Word
    requires |s| == 4
  {
    var a: int, b: int, c: int, d: int := s[0], s[1], s[2], s[3];
    ((a * 256 + b) * 256 + c) * 256 + d
  }

  lemma WordRoundTrip(w: Word)
    ensures FromBigEndian(BigEndian(w)) == w
  {
    var a := w / 256;
    var b := a / 256;
    assert w == 256 * a + w % 256 && a == 256 * b + a % 256 && b == 256 * (b / 256) + b % 256;
  }

  lemma BytesRoundTrip(s: seq<Byte>)
    requires |s| == 4
    ensures BigEndian(FromBigEndian(s)) == s
  {
    var b0: int, b1: int, b2: int, b3: int := s[0], s[1], s[2], s[3];
    var w := FromBigEndian(s);
    Divides((b0 * 256 + b1) * 256 + b2, b3);
    Divides(b0 * 256 + b1, b2);
    Divides(b0, b1);
    assert BigEndian(w) == [b0, b1, b2, b3];
  }

  lemma Divides(high: nat, low: Byte)
    ensures (high * 256 + low) / 256 == high && (high * 256 + low) % 256 == low
  {
  }

  function Body(v: seq<Word>): (b: seq<Byte>)
    ensures |b| == 4 * |v|
  {
    if v == [] then [] else Body(v[..|v| - 1]) + BigEndian(v[|v| - 1])
  }

  /** The number of dimensions is cut to 32 bits. */
  function Encoded(v: seq<Word>): seq<Byte> {
    MAGIC + BigEndian(|v| % WORDS) + Body(v)
  }

  /** Writes the payload into a buffer of its final size. */
  method Encode(v: seq<Word>, finite: Word -> bool, zero: Word -> bool) returns (r: Option<array<Byte>>)
    ensures r.Some? <==> ValidVector(v, finite, zero)
    ensures r.Some? ==> fresh(r.value) && r.value[..] == Encoded(v)
  {
    if !ValidVector(v, finite, zero) {
      return None;
    }
    var buffer := new Byte[HEADER + |v| * 4](_ => 0);
    for i := 0 to 8
      invariant buffer[..i] == MAGIC[..i]
    {
      buffer[i] := MAGIC[i];
    }
    PutWord(buffer, 8, |v| % WORDS);
    assert buffer[..HEADER] == MAGIC + BigEndian(|v| % WORDS);
    for k := 0 to |v|
      invariant buffer[..HEADER] == MAGIC + BigEndian(|v| % WORDS)
      invariant buffer[HEADER..HEADER + 4 * k] == Body(v[..k])
    {
      ghost var before := buffer[..HEADER + 4 * k];
      PutWord(buffer, HEADER + 4 * k, v[k]);
      assert buffer[..HEADER + 4 * k] == before;
      assert v[..k + 1][..k] == v[..k];
      assert buffer[HEADER..HEADER + 4 * (k + 1)] == before[HEADER..] + BigEndian(v[k]);
      assert buffer[..HEADER] == before[..HEADER];
    }
    assert v[..|v|] == v;
    assert buffer[..] == buffer[..HEADER] + buffer[HEADER..HEADER + 4 * |v|];
    r := Some(buffer);
  }

  method PutWord(buffer: array<Byte>, at: nat, w: Word)
    requires at + 4 <= buffer.Length
    modifies buffer
    ensures buffer[at..at + 4] == BigEndian(w)
    ensures buffer[..at] == old(buffer[..at]) && buffer[at + 4..] == old(buffer[at + 4..])
  {
    var a := w / 256;
    var b := a / 256;
    buffer[at], buffer[at + 1], buffer[at + 2], buffer[at + 3] := b / 256, b % 256, a % 256, w % 256;
  }

  /** The vector of a payload, unless the header, the dimensions, the length or the entries are wrong. */
  function Decode(p: seq<Byte>, finite: Word -> bool, zero: Word -> bool): Option<seq<Word>> {
    if |p| < HEADER || p[..8] != MAGIC then None
    else
      var n := FromBigEndian(p[8..HEADER]);
      if n <= 0 || n > MAX_DIMENSIONS || |p| != HEADER + 4 * n then None
      else
        var v := Words(p[HEADER..]);
        if ValidVector(v, finite, zero) then Some(v) else None
  }

  function Words(b: seq<Byte>): (v: seq<Word>)
    requires |b| % 4 == 0
    ensures 4 * |v| == |b|
  {
    if b == [] then [] else Words(b[..|b| - 4]) + [FromBigEndian(b[|b| - 4..])]
  }

  lemma {:induction false} BodyRoundTrip(v: seq<Word>)
    ensures Words(Body(v)) == v
  {
    if v != [] {
      var init, last := v[..|v| - 1], v[|v| - 1];
      BodyRoundTrip(init);
      var b := Body(v);
      assert b[..|b| - 4] == Body(init) && b[|b| - 4..] == BigEndian(last);
      WordRoundTrip(last);
    }
  }

  lemma {:induction false} WordsRoundTrip(b: seq<Byte>)
    requires |b| % 4 == 0
    ensures Body(Words(b)) == b
  {
    if b != [] {
      var init, last := b[..|b| - 4], b[|b| - 4..];
      WordsRoundTrip(init);
      var v := Words(b);
      assert v[..|v| - 1] == Words(init) && v[|v| - 1] == FromBigEndian(last);
      BytesRoundTrip(last);
      assert b == init + last;
    }
  }

  /** A valid vector is read back as it was written exactly if it has at most 65536 dimensions; longer ones are refused. */
  lemma DecodesIff(v: seq<Word>, finite: Word -> bool, zero: Word -> bool)
    requires ValidVector(v, finite, zero)
    ensures Decode(Encoded(v), finite, zero) == if |v| <= 65536 then Some(v) else None
  {
    hide BigEndian, FromBigEndian;
    var p := Encoded(v);
    assert |BigEndian(|v| % WORDS)| == 4 by { FourBytes(|v| % WORDS); }
    assert p[..8] == MAGIC && p[8..HEADER] == BigEndian(|v| % WORDS) && p[HEADER..] == Body(v);
    WordRoundTrip(|v| % WORDS);
    BodyRoundTrip(v);
  }

  lemma FourBytes(w: Word)
    ensures |BigEndian(w)| == 4
  {
  }

  /** Only encodings of valid vectors are accepted, each for one vector. */
  lemma DecodeIsExact(p: seq<Byte>, finite: Word -> bool, zero: Word -> bool)
    requires Decode(p, finite, zero).Some?
    ensures var v := Decode(p, finite, zero).value; ValidVector(v, finite, zero) && p == Encoded(v)
  {
    hide BigEndian, FromBigEndian, ValidVector;
    var v := Decode(p, finite, zero).value;
    BytesRoundTrip(p[8..HEADER]);
    WordsRoundTrip(p[HEADER..]);
    assert p == p[..8] + p[8..HEADER] + p[HEADER..];
  }

  /** The payload begins with "GTMVEC01"; the number of dimensions and the words follow, each with its highest byte first. */
  lemma LayoutMeans(v: seq<Word>, i: nat)
    requires |v| < WORDS && i < |v|
    ensures var p := Encoded(v);
            && |p| == 12 + 4 * |v| && p[..8] == [71, 84, 77, 86, 69, 67, 48, 49]
            && p[8] == |v| / 0x100_0000 && p[11] == |v| % 256
            && p[12 + 4 * i] == v[i] / 0x100_0000 && p[15 + 4 * i] == v[i] % 256
  {
    hide BigEndian;
    FourBytes(|v| % WORDS);
    HighestFirst(|v|);
    HighestFirst(v[i]);
    BodyAt(v, i);
    FourBytes(v[i]);
    var p := Encoded(v);
    assert p[8..12] == BigEndian(|v|) && p[12..] == Body(v);
    assert p[12..][4 * i..4 * i + 4] == BigEndian(v[i]);
  }

  lemma HighestFirst(w: Word)
    ensures |BigEndian(w)| == 4 && BigEndian(w)[0] == w / 0x100_0000 && BigEndian(w)[3] == w % 256
  {
  }

  lemma {:induction false} BodyAt(v: seq<Word>, i: nat)
    requires i < |v|
    ensures Body(v)[4 * i..4 * i + 4] == BigEndian(v[i])
    decreases |v|
  {
    hide BigEndian;
    var n := |v| - 1;
    FourBytes(v[n]);
    if i < n {
      BodyAt(v[..n], i);
      assert Body(v)[4 * i..4 * i + 4] == Body(v[..n])[4 * i..4 * i + 4];
    } else {
      assert Body(v)[4 * n..4 * n + 4] == BigEndian(v[n]);
    }
  }
}
