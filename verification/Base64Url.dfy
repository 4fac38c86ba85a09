/**
  Unpadded base64url (section 5 of RFC 4648) as the envelope uses it.  The decoder checks the
  length and the alphabet and ignores the unused low bits of the last character.
 */
module Base64Url {
  import opened Octets
  import opened Wrappers

  newtype sextet = x: int | 0 <= x < 64

  function Digit(n: sextet): char {
    if n < 26 then ('A' as int + n as int) as char
    else if n < 52 then ('a' as int + n as int - 26) as char
    else if n < 62 then ('0' as int + n as int - 52) as char
    else if n == 62 then '-' else '_'
  }

  predicate InAlphabet(c: char) {
    'A' <= c <= 'Z' || 'a' <= c <= 'z' || '0' <= c <= '9' || c == '-' || c == '_'
  }

  function Value(c: char): sextet
    requires InAlphabet(c)
  {
    if 'A' <= c <= 'Z' then (c as int - 'A' as int) as sextet
    else if 'a' <= c <= 'z' then (c as int - 'a' as int + 26) as sextet
    else if '0' <= c <= '9' then (c as int - '0' as int + 52) as sextet
    else if c == '-' then 62 else 63
  }

  function Text(v: seq<sextet>): (s: string)
    ensures |s| == |v| && forall i :: 0 <= i < |v| ==> s[i] == Digit(v[i])
  {
    seq(|v|, i requires 0 <= i < |v| => Digit(v[i]))
  }

  function Values(s: string): (v: seq<sextet>)
    requires forall i :: 0 <= i < |s| ==> InAlphabet(s[i])
    ensures |v| == |s| && forall i :: 0 <= i < |s| ==> v[i] == Value(s[i])
  {
    seq(|s|, i requires 0 <= i < |s| => Value(s[i]))
  }

  lemma ValuesOfText(v: seq<sextet>)
    ensures forall i :: 0 <= i < |v| ==> InAlphabet(Text(v)[i])
    ensures Values(Text(v)) == v
  {
  }

  lemma TextOfValues(s: string)
    requires forall i :: 0 <= i < |s| ==> InAlphabet(s[i])
    ensures Text(Values(s)) == s
  {
  }

  // ----- Three bytes as four sextets

  function First(a: byte): sextet {
    (a / 4) as sextet
  }

  function Second(a: byte, b: byte): sextet {
    (a % 4 * 16 + b / 16) as sextet
  }

  function Third(b: byte, c: byte): sextet {
    (b % 16 * 4 + c / 64) as sextet
  }

  function Fourth(c: byte): sextet {
    (c % 64) as sextet
  }

  function FirstByte(p: sextet, q: sextet): byte {
    (p as int * 4 + q as int / 16) as byte
  }

  function SecondByte(q: sextet, r: sextet): byte {
    (q as int % 16 * 16 + r as int / 4) as byte
  }

  function ThirdByte(r: sextet, s: sextet): byte {
    (r as int % 4 * 64 + s as int) as byte
  }

  lemma BytesOfSextets(a: byte, b: byte, c: byte)
    ensures FirstByte(First(a), Second(a, b)) == a
    ensures SecondByte(Second(a, b), Third(b, c)) == b
    ensures ThirdByte(Third(b, c), Fourth(c)) == c
  {
  }

  lemma SextetsOfBytes(p: sextet, q: sextet, r: sextet, s: sextet)
    ensures First(FirstByte(p, q)) == p
    ensures Second(FirstByte(p, q), SecondByte(q, r)) == q
    ensures Third(SecondByte(q, r), ThirdByte(r, s)) == r
    ensures Fourth(ThirdByte(r, s)) == s
    ensures Second(FirstByte(p, q), 0) == q <==> q % 16 == 0
    ensures Third(SecondByte(q, r), 0) == r <==> r % 4 == 0
  {
  }

  const LETTERS := "ABCDEFGHIJKLMNOPQRSTUVWXYZ"
  const SMALL_LETTERS := "abcdefghijklmnopqrstuvwxyz"
  const FIGURES := "0123456789-_"

  /** The alphabet of table 2 in RFC 4648, in order. */
  const ALPHABET := LETTERS + SMALL_LETTERS + FIGURES

  lemma LettersInOrder(n: sextet)
    requires n < 26
    ensures |LETTERS| == 26 && LETTERS[n] == Digit(n)
  {
  }

  lemma SmallLettersInOrder(n: sextet)
    requires 26 <= n < 52
    ensures |SMALL_LETTERS| == 26 && SMALL_LETTERS[n - 26] == Digit(n)
  {
  }

  lemma FiguresInOrder(n: sextet)
    requires 52 <= n
    ensures |FIGURES| == 12 && FIGURES[n - 52] == Digit(n)
  {
  }

  lemma AlphabetAt(n: nat)
    requires n < 64
    ensures |ALPHABET| == 64 && ALPHABET[n]
      == if n < 26 then LETTERS[n] else if n < 52 then SMALL_LETTERS[n - 26] else FIGURES[n - 52]
  {
  }

  /** The digit of each value is the one the standard gives it. */
  lemma DigitIsStandard(n: sextet)
    ensures |ALPHABET| == 64 && Digit(n) == ALPHABET[n]
  {
    AlphabetAt(n as nat);
    if n < 26 {
      LettersInOrder(n);
    } else if n < 52 {
      SmallLettersInOrder(n);
    } else {
      FiguresInOrder(n);
    }
  }

  /** Three bytes and their four digits are the same 24-bit number, most significant part first. */
  lemma GroupIsBigEndian(a: byte, b: byte, c: byte)
    ensures First(a) as int * 262144 + Second(a, b) as int * 4096 + Third(b, c) as int * 64 + Fourth(c) as int
      == a as int * 65536 + b as int * 256 + c as int
  {
  }

  // ----- Groups, over any way of cutting three bytes into four sextets and back

  datatype Grouping = Grouping(
    first: byte -> sextet, second: (byte, byte) -> sextet, third: (byte, byte) -> sextet, fourth: byte -> sextet,
    byte1: (sextet, sextet) -> byte, byte2: (sextet, sextet) -> byte, byte3: (sextet, sextet) -> byte)

  const RFC4648 := Grouping(First, Second, Third, Fourth, FirstByte, SecondByte, ThirdByte)

  ghost predicate CutAt(g: Grouping, a: byte, b: byte, c: byte) {
    && g.byte1(g.first(a), g.second(a, b)) == a
    && g.byte2(g.second(a, b), g.third(b, c)) == b
    && g.byte3(g.third(b, c), g.fourth(c)) == c
  }

  ghost predicate JoinAt(g: Grouping, p: sextet, q: sextet, r: sextet, s: sextet) {
    && g.first(g.byte1(p, q)) == p
    && g.second(g.byte1(p, q), g.byte2(q, r)) == q
    && g.third(g.byte2(q, r), g.byte3(r, s)) == r
    && g.fourth(g.byte3(r, s)) == s
    && (g.second(g.byte1(p, q), 0) == q <==> q % 16 == 0)
    && (g.third(g.byte2(q, r), 0) == r <==> r % 4 == 0)
  }

  ghost predicate CutsBack(g: Grouping) {
    forall a, b, c :: CutAt(g, a, b, c)
  }

  ghost predicate JoinsBack(g: Grouping) {
    forall p, q, r, s :: JoinAt(g, p, q, r, s)
  }

  lemma RfcCuts()
    ensures CutsBack(RFC4648)
  {
    forall a, b, c ensures CutAt(RFC4648, a, b, c) {
      BytesOfSextets(a, b, c);
    }
  }

  lemma RfcJoins()
    ensures JoinsBack(RFC4648)
  {
    forall p, q, r, s ensures JoinAt(RFC4648, p, q, r, s) {
      SextetsOfBytes(p, q, r, s);
    }
  }

  function Sextets(g: Grouping, x: Bytes): (v: seq<sextet>)
    ensures |v| % 4 != 1
    decreases |x|
  {
    if x == [] then []
    else if |x| == 1 then [g.first(x[0]), g.second(x[0], 0)]
    else if |x| == 2 then [g.first(x[0]), g.second(x[0], x[1]), g.third(x[1], 0)]
    else
      var rest := Sextets(g, x[3..]);
      assert (4 + |rest|) % 4 == |rest| % 4;
      [g.first(x[0]), g.second(x[0], x[1]), g.third(x[1], x[2]), g.fourth(x[2])] + rest
  }

  function BytesOf(g: Grouping, v: seq<sextet>): Bytes
    requires |v| % 4 != 1
    decreases |v|
  {
    if v == [] then []
    else if |v| == 2 then [g.byte1(v[0], v[1])]
    else if |v| == 3 then [g.byte1(v[0], v[1]), g.byte2(v[1], v[2])]
    else [g.byte1(v[0], v[1]), g.byte2(v[1], v[2]), g.byte3(v[2], v[3])] + BytesOf(g, v[4..])
  }

  function Encode(x: Bytes): string {
    Text(Sextets(RFC4648, x))
  }

  predicate Readable(s: string) {
    (forall i :: 0 <= i < |s| ==> InAlphabet(s[i])) && |s| % 4 != 1
  }

  function Decode(s: string, maximum: nat): Option<Bytes> {
    if |s| <= (maximum + 2) / 3 * 4 && Readable(s) then Some(BytesOf(RFC4648, Values(s))) else None
  }

  // ----- Round trips

  /** Three bytes at a time: the lengths of both forms. */
  lemma {:induction false} SextetsLength(g: Grouping, x: Bytes)
    ensures |Sextets(g, x)| <= (|x| + 2) / 3 * 4
    decreases |x|
  {
    if |x| >= 3 { SextetsLength(g, x[3..]); }
  }

  lemma {:induction false} BytesLength(g: Grouping, v: seq<sextet>)
    requires |v| % 4 != 1
    ensures 4 * |BytesOf(g, v)| <= 3 * |v|
    decreases |v|
  {
    if |v| >= 4 { BytesLength(g, v[4..]); }
  }

  lemma ThreeFirst(g: Grouping, x: Bytes)
    requires CutsBack(g) && |x| >= 3 && BytesOf(g, Sextets(g, x[3..])) == x[3..]
    ensures BytesOf(g, Sextets(g, x)) == x
  {
    assert CutAt(g, x[0], x[1], x[2]);
    var head := [g.first(x[0]), g.second(x[0], x[1]), g.third(x[1], x[2]), g.fourth(x[2])];
    assert Sextets(g, x) == head + Sextets(g, x[3..]);
    assert Sextets(g, x)[4..] == Sextets(g, x[3..]);
    assert x == [x[0], x[1], x[2]] + x[3..];
  }

  lemma {:induction false} BytesOfSextetsOf(g: Grouping, x: Bytes)
    requires CutsBack(g)
    ensures BytesOf(g, Sextets(g, x)) == x
    decreases |x|
  {
    if |x| >= 3 {
      BytesOfSextetsOf(g, x[3..]);
      ThreeFirst(g, x);
    } else if |x| == 2 {
      assert CutAt(g, x[0], x[1], 0);
    } else if |x| == 1 {
      assert CutAt(g, x[0], 0, 0);
    }
  }

  lemma RoundUp(n: nat, maximum: nat)
    requires n <= maximum
    ensures (n + 2) / 3 * 4 <= (maximum + 2) / 3 * 4
  {
  }

  /** What was encoded is decoded again, whenever the decoder's maximum admits it. */
  lemma DecodeOfEncode(x: Bytes, maximum: nat)
    requires |x| <= maximum
    ensures Decode(Encode(x), maximum) == Some(x)
  {
    RfcCuts();
    SextetsLength(RFC4648, x);
    RoundUp(|x|, maximum);
    ValuesOfText(Sextets(RFC4648, x));
    BytesOfSextetsOf(RFC4648, x);
  }

  /** Encoding never shortens. */
  lemma EncodingIsLonger(x: Bytes)
    ensures |Encode(x)| >= |x|
  {
    RfcCuts();
    BytesOfSextetsOf(RFC4648, x);
    BytesLength(RFC4648, Sextets(RFC4648, x));
  }

  /** The maximum is enforced up to the last group: at most two bytes more get through. */
  lemma DecodedLength(s: string, maximum: nat)
    requires Decode(s, maximum).Some?
    ensures |Decode(s, maximum).value| <= (maximum + 2) / 3 * 3 <= maximum + 2
  {
    BytesLength(RFC4648, Values(s));
  }

  /** The unused low bits of the last character are zero. */
  predicate CanonicalTail(v: seq<sextet>) {
    && (|v| % 4 == 2 ==> v[|v| - 1] % 16 == 0)
    && (|v| % 4 == 3 ==> v[|v| - 1] % 4 == 0)
  }

  /** One full group through the decoder and the encoder. */
  lemma GroupSurvives(g: Grouping, p: sextet, q: sextet, r: sextet, s: sextet, x: Bytes)
    requires JoinAt(g, p, q, r, s)
    ensures Sextets(g, [g.byte1(p, q), g.byte2(q, r), g.byte3(r, s)] + x) == [p, q, r, s] + Sextets(g, x)
  {
    var y := [g.byte1(p, q), g.byte2(q, r), g.byte3(r, s)] + x;
    assert y[3..] == x;
  }

  lemma FirstFour(v: seq<sextet>)
    requires |v| >= 4
    ensures v == [v[0], v[1], v[2], v[3]] + v[4..]
  {
  }

  lemma SameHead(head: seq<sextet>, a: seq<sextet>, b: seq<sextet>)
    ensures head + a == head + b <==> a == b
  {
    assert (head + a)[|head|..] == a && (head + b)[|head|..] == b;
  }

  /** A full first group always survives; the verdict is on the rest. */
  lemma GroupThenRest(g: Grouping, v: seq<sextet>)
    requires |v| % 4 != 1 && |v| >= 4 && JoinAt(g, v[0], v[1], v[2], v[3])
    ensures Sextets(g, BytesOf(g, v)) == v <==> Sextets(g, BytesOf(g, v[4..])) == v[4..]
  {
    GroupSurvives(g, v[0], v[1], v[2], v[3], BytesOf(g, v[4..]));
    FirstFour(v);
    SameHead([v[0], v[1], v[2], v[3]], Sextets(g, BytesOf(g, v[4..])), v[4..]);
  }

  lemma LastGroup(g: Grouping, v: seq<sextet>)
    requires JoinsBack(g) && |v| % 4 != 1 && |v| < 4
    ensures Sextets(g, BytesOf(g, v)) == v <==> CanonicalTail(v)
  {
    if |v| == 2 {
      assert JoinAt(g, v[0], v[1], 0, 0);
    } else if |v| == 3 {
      assert JoinAt(g, v[0], v[1], v[2], 0);
    }
  }

  lemma {:induction false} SextetsOfBytesOf(g: Grouping, v: seq<sextet>)
    requires JoinsBack(g) && |v| % 4 != 1
    ensures Sextets(g, BytesOf(g, v)) == v <==> CanonicalTail(v)
    decreases |v|
  {
    if |v| >= 4 {
      assert JoinAt(g, v[0], v[1], v[2], v[3]);
      GroupThenRest(g, v);
      SextetsOfBytesOf(g, v[4..]);
      SameTail(v);
    } else {
      LastGroup(g, v);
    }
  }

  lemma SameTail(v: seq<sextet>)
    requires |v| % 4 != 1 && |v| >= 4
    ensures CanonicalTail(v) <==> CanonicalTail(v[4..])
  {
  }

  /** The decoder inverts the encoder exactly on texts whose unused bits are zero. */
  lemma EncodeOfDecode(s: string, maximum: nat)
    requires Decode(s, maximum).Some?
    ensures Encode(Decode(s, maximum).value) == s <==> CanonicalTail(Values(s))
  {
    var v := Values(s);
    RfcJoins();
    SextetsOfBytesOf(RFC4648, v);
    TextOfValues(s);
    ValuesOfText(Sextets(RFC4648, BytesOf(RFC4648, v)));
  }

  /** So decoding is not injective: "QQ" and "QR" stand for the same byte. */
  lemma DecodeNotInjective()
    ensures Decode("QQ", 1) == Decode("QR", 1) == Some([65])
    ensures !CanonicalTail(Values("QR"))
  {
    assert Values("QQ") == [16, 16] && Values("QR") == [16, 17];
  }
}
