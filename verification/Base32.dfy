/** Base32 (section 6 of RFC 4648) as the authenticator secrets use it. The accumulator is a 32-bit
    word that is never masked, so bits drop off its top; only its lowest twelve bits are ever read,
    so the same holds of a word of any width from twelve bits up, which `width` stands for. */
module Base32 {
  import opened Wrappers

  type Byte = b: nat | b < 256

  type Digit = d: nat | d < 32

  /** The alphabet: A to Z, then 2 to 7. */
  function CharOf(d: Digit): char {
    if d < 26 then 'A' + (d as char) else '2' + ((d - 26) as char)
  }

  // ---- Words ----------------------------------------------------------------------------------

  function Doubled(v: nat, n: nat): nat { if n == 0 then v else 2 * Doubled(v, n - 1) }

  /** The `n` lowest bits of a number: what masking with `n` ones keeps. */
  function Low(v: nat, n: nat): (r: nat)
    ensures r < Doubled(1, n)
  {
    if n == 0 then 0 else 2 * Low(v / 2, n - 1) + v % 2
  }

  const WORD_BITS: nat := 32

  /** `v << n`, which drops what leaves the word. */
  function Shl(v: nat, n: nat, width: nat): nat { Low(Doubled(v, n), width) }

  /** `v >>> n`. */
  function Shr(v: nat, n: nat): nat { if n == 0 then v else Shr(v / 2, n - 1) }

  lemma Powers()
    ensures Doubled(1, 5) == 32 && Doubled(1, 8) == 256
  {
    assert Doubled(1, 3) == 8;
    assert Doubled(1, 6) == 64;
  }

  // ---- Bits ----------------------------------------------------------------------------------

  predicate Odd(v: nat) { v % 2 == 1 }

  /** The `n` lowest bits of a number, highest first. */
  function BitsOf(v: nat, n: nat): (r: seq<bool>)
    ensures |r| == n
  {
    seq(n, i requires 0 <= i < n => Odd(Shr(v, n - 1 - i)))
  }

  lemma BitsStep(v: nat, n: nat)
    requires n > 0
    ensures BitsOf(v, n) == BitsOf(v / 2, n - 1) + [v % 2 == 1]
  {
    var r := BitsOf(v / 2, n - 1) + [v % 2 == 1];
    forall i | 0 <= i < n ensures BitsOf(v, n)[i] == r[i] {
      assert BitsOf(v, n)[i] == Odd(Shr(v, n - 1 - i));
      if i < n - 1 { assert r[i] == Odd(Shr(v / 2, n - 2 - i)); }
    }
  }

  /** The bits of a list of numbers of `n` bits each. */
  function Flat(values: seq<nat>, n: nat): (r: seq<bool>)
    ensures |r| == n * |values|
  {
    if values == [] then [] else Flat(values[..|values| - 1], n) + BitsOf(values[|values| - 1], n)
  }

  function Zeros(n: nat): seq<bool> { seq(n, i => false) }

  lemma FlatAppend(values: seq<nat>, v: nat, n: nat)
    ensures Flat(values + [v], n) == Flat(values, n) + BitsOf(v, n)
  {
    assert (values + [v])[..|values|] == values;
  }

  lemma BitsSplit(v: nat, a: nat, b: nat)
    ensures BitsOf(v, a + b) == BitsOf(Shr(v, b), a) + BitsOf(v, b)
  {
    if b == 0 {
      assert BitsOf(v, b) == [];
    } else {
      BitsSplit(v / 2, a, b - 1);
      BitsStep(v, a + b);
      BitsStep(v, b);
      assert a + b - 1 == a + (b - 1);
    }
  }

  /** The lowest bits do not see what masking cuts off above them. */
  lemma BitsOfLow(v: nat, k: nat, n: nat)
    requires n <= k
    ensures BitsOf(Low(v, k), n) == BitsOf(v, n)
  {
    if n > 0 {
      BitsOfLow(v / 2, k - 1, n - 1);
      BitsStep(v, n);
      BitsStep(Low(v, k), n);
    }
  }

  lemma LowOfDoubled(v: nat, n: nat, k: nat)
    requires n <= k
    ensures Low(Doubled(v, n), k) == Doubled(Low(v, k - n), n)
  {
    if n > 0 { LowOfDoubled(v, n - 1, k - 1); }
  }

  lemma BitsOfDoubled(v: nat, b: nat, n: nat)
    ensures BitsOf(Doubled(v, n), b + n) == BitsOf(v, b) + Zeros(n)
  {
    if n == 0 {
      assert Zeros(n) == [];
    } else {
      BitsOfDoubled(v, b, n - 1);
      BitsStep(Doubled(v, n), b + n);
      assert Doubled(v, n) / 2 == Doubled(v, n - 1) && Doubled(v, n) % 2 == 0;
      assert b + n - 1 == b + (n - 1);
      assert Zeros(n - 1) + [false] == Zeros(n);
    }
  }

  /** Shifting in a value of `n` bits appends its bits to those pending. */
  lemma ShiftIn(value: nat, pending: nat, v: nat, n: nat, width: nat)
    requires pending + n <= width && v < Doubled(1, n)
    ensures BitsOf(Shl(value, n, width) + v, pending + n) == BitsOf(value, pending) + BitsOf(v, n)
  {
    LowOfDoubled(value, n, width);
    BitsOfSum(Low(value, width - n), pending, v, n);
    BitsOfLow(value, width - n, pending);
  }

  lemma BitsOfSum(value: nat, pending: nat, v: nat, n: nat)
    requires v < Doubled(1, n)
    ensures BitsOf(Doubled(value, n) + v, pending + n) == BitsOf(value, pending) + BitsOf(v, n)
  {
    if n == 0 {
      assert BitsOf(v, n) == [];
    } else {
      BitsOfSum(value, pending, v / 2, n - 1);
      BitsStep(Doubled(value, n) + v, pending + n);
      BitsStep(v, n);
      assert (Doubled(value, n) + v) / 2 == Doubled(value, n - 1) + v / 2;
      assert (Doubled(value, n) + v) % 2 == v % 2;
      assert pending + n - 1 == pending + (n - 1);
    }
  }

  /** A value shifted in goes behind the bits pending; `front` are those already written out. */
  lemma BitsIn(front: seq<bool>, value: nat, bits: nat, whole: seq<bool>, v: nat, n: nat, width: nat)
    requires front + BitsOf(value, bits) == whole && bits + n <= width && v < Doubled(1, n)
    ensures front + BitsOf(Shl(value, n, width) + v, bits + n) == whole + BitsOf(v, n)
  {
    ShiftIn(value, bits, v, n, width);
    assert front + (BitsOf(value, bits) + BitsOf(v, n)) == whole + BitsOf(v, n);
  }

  /** The highest `n` pending bits are written out as one number. */
  lemma BitsOut(front: seq<bool>, value: nat, bits: nat, whole: seq<bool>, n: nat)
    requires front + BitsOf(value, bits) == whole && n <= bits
    ensures front + BitsOf(Low(Shr(value, bits - n), n), n) + BitsOf(value, bits - n) == whole
  {
    BitsSplit(value, n, bits - n);
    BitsOfLow(Shr(value, bits - n), n, n);
    assert front + (BitsOf(Shr(value, bits - n), n) + BitsOf(value, bits - n)) == whole;
  }

  // ---- Encoding ------------------------------------------------------------------------------

  /** The digits spell the bits of the bytes, padded with fewer than five zero bits. */
  ghost predicate Encodes(bytes: seq<Byte>, digits: seq<Digit>) {
    exists pad: nat :: pad < 5 && Flat(digits, 5) == Flat(bytes, 8) + Zeros(pad)
  }

  function Text(digits: seq<Digit>): string { seq(|digits|, i requires 0 <= i < |digits| => CharOf(digits[i])) }

  /** The digits written, and then the bits pending in the accumulator, spell these bytes. */
  ghost predicate Spelled(digits: seq<Digit>, value: nat, bits: nat, bytes: seq<Byte>) {
    Flat(digits, 5) + BitsOf(value, bits) == Flat(bytes, 8)
  }

  lemma ByteIn(digits: seq<Digit>, value: nat, bits: nat, bytes: seq<Byte>, b: Byte, width: nat)
    requires width >= 12 && Spelled(digits, value, bits, bytes) && bits < 5
    ensures Spelled(digits, Shl(value, 8, width) + b, bits + 8, bytes + [b])
  {
    Powers();
    FlatAppend(bytes, b, 8);
    BitsIn(Flat(digits, 5), value, bits, Flat(bytes, 8), b, 8, width);
  }

  lemma DigitOut(digits: seq<Digit>, value: nat, bits: nat, bytes: seq<Byte>, d: Digit)
    requires Spelled(digits, value, bits, bytes) && 5 <= bits < 13 && d == Low(Shr(value, bits - 5), 5)
    ensures Spelled(digits + [d], value, bits - 5, bytes)
  {
    BitsOut(Flat(digits, 5), value, bits, Flat(bytes, 8), 5);
    FlatAppend(digits, d, 5);
  }

  lemma LastDigit(digits: seq<Digit>, value: nat, bits: nat, bytes: seq<Byte>, d: Digit, width: nat)
    requires width >= 12 && Spelled(digits, value, bits, bytes) && 0 < bits < 5 && d == Low(Shl(value, 5 - bits, width), 5)
    ensures Encodes(bytes, digits + [d])
  {
    BitsOfDoubled(value, bits, 5 - bits);
    BitsOfLow(Doubled(value, 5 - bits), width, 5);
    BitsOfLow(Shl(value, 5 - bits, width), 5, 5);
    FlatAppend(digits, d, 5);
    assert Flat(digits + [d], 5) == Flat(bytes, 8) + Zeros(5 - bits);
  }

  lemma NoDigitLeft(digits: seq<Digit>, value: nat, bytes: seq<Byte>)
    requires Spelled(digits, value, 0, bytes)
    ensures Encodes(bytes, digits)
  {
    assert Flat(digits, 5) == Flat(bytes, 8) + Zeros(0);
  }

  lemma TextAppend(digits: seq<Digit>, d: Digit)
    ensures Text(digits + [d]) == Text(digits) + [CharOf(d)]
  {
  }

  method Base32Encode(bytes: seq<Byte>, width: nat) returns (text: string)
    requires width >= 12
    ensures exists digits: seq<Digit> :: text == Text(digits) && Encodes(bytes, digits)
  {
    Powers();
    var bits: nat := 0;
    var value: nat := 0;
    text := "";
    ghost var digits: seq<Digit> := [];
    var i := 0;
    assert text == Text(digits) && Spelled(digits, value, bits, bytes[..0]);
    hide Low, Doubled, Shr, Shl, BitsOf, Flat, Spelled, Text;
    while i < |bytes|
      invariant 0 <= i <= |bytes| && bits < 5
      invariant text == Text(digits) && Spelled(digits, value, bits, bytes[..i])
    {
      ByteIn(digits, value, bits, bytes[..i], bytes[i], width);
      assert bytes[..i + 1] == bytes[..i] + [bytes[i]];
      value := Shl(value, 8, width) + bytes[i];
      bits := bits + 8;
      while bits >= 5
        invariant bits < 13
        invariant text == Text(digits) && Spelled(digits, value, bits, bytes[..i + 1])
        decreases bits
      {
        var d: Digit := Low(Shr(value, bits - 5), 5);
        DigitOut(digits, value, bits, bytes[..i + 1], d);
        TextAppend(digits, d);
        text := text + [CharOf(d)];
        digits := digits + [d];
        bits := bits - 5;
      }
      i := i + 1;
    }
    assert bytes[..i] == bytes;
    if bits > 0 {
      var d: Digit := Low(Shl(value, 5 - bits, width), 5);
      LastDigit(digits, value, bits, bytes, d, width);
      TextAppend(digits, d);
      text := text + [CharOf(d)];
      digits := digits + [d];
    } else {
      NoDigitLeft(digits, value, bytes);
    }
  }

  // ---- Decoding ------------------------------------------------------------------------------

  /** A character in upper case, as far as it matters here: of those beyond ASCII, the ten whose upper case
      is made of letters of the alphabet. The others' is not, so that they are refused either way. */
  function Upper(c: char): string {
    if 'a' <= c <= 'z' then [c - 'a' + 'A']
    else match c
      case '\U{DF}' => "SS"
      case '\U{131}' => "I"
      case '\U{17F}' => "S"
      case '\U{FB00}' => "FF"
      case '\U{FB01}' => "FI"
      case '\U{FB02}' => "FL"
      case '\U{FB03}' => "FFI"
      case '\U{FB04}' => "FFL"
      case '\U{FB05}' => "ST"
      case '\U{FB06}' => "ST"
      case _ => [c]
  }

  /** White space of any script. */
  predicate Blank(c: char) {
    || c in " \t\n\r\U{0B}\U{0C}\U{A0}\U{1680}\U{2028}\U{2029}\U{202F}\U{205F}\U{3000}\U{FEFF}"
    || '\U{2000}' <= c <= '\U{200A}'
  }

  predicate Ignored(c: char) { Blank(c) || c in "=-" }

  function Clean(text: string): string {
    if text == "" then ""
    else (if Ignored(text[0]) then "" else Upper(text[0])) + Clean(text[1..])
  }

  /** The place of a character in the alphabet. */
  function IndexOf(c: char): (r: Option<Digit>)
    ensures r.Some? ==> CharOf(r.value) == c
    ensures r.None? ==> forall d: Digit :: CharOf(d) != c
  {
    if 'A' <= c <= 'Z' then Some((c - 'A') as nat)
    else if '2' <= c <= '7' then Some(26 + (c - '2') as nat)
    else None
  }

  /** The digits of a text, when every character is one. */
  function DigitsOf(text: string): Option<seq<Digit>> {
    if text == "" then Some([])
    else
      var before := DigitsOf(text[..|text| - 1]);
      var last := IndexOf(text[|text| - 1]);
      if before.None? || last.None? then None else Some(before.value + [last.value])
  }

  /** The bytes are the whole bytes at the front of the digits' bits. */
  ghost predicate Decodes(digits: seq<Digit>, bytes: seq<Byte>) {
    var bits := Flat(digits, 5);
    8 * |bytes| <= |bits| < 8 * |bytes| + 8 && Flat(bytes, 8) == bits[..8 * |bytes|]
  }

  lemma DigitsStep(text: string, i: nat, digits: seq<Digit>)
    requires i < |text| && DigitsOf(text[..i]) == Some(digits)
    ensures DigitsOf(text[..i + 1]) ==
            if IndexOf(text[i]).None? then None else Some(digits + [IndexOf(text[i]).value])
  {
    assert text[..i + 1][..i] == text[..i];
  }

  /** The first `i` characters are these digits. */
  ghost predicate ReadAs(text: string, i: nat, digits: seq<Digit>) { i <= |text| && DigitsOf(text[..i]) == Some(digits) }

  lemma NothingRead(text: string)
    ensures ReadAs(text, 0, [])
  {
  }

  lemma CharRead(text: string, i: nat, digits: seq<Digit>, d: Digit)
    requires i < |text| && ReadAs(text, i, digits) && IndexOf(text[i]) == Some(d)
    ensures ReadAs(text, i + 1, digits + [d])
  {
    DigitsStep(text, i, digits);
  }

  lemma AllRead(text: string, digits: seq<Digit>)
    requires ReadAs(text, |text|, digits)
    ensures DigitsOf(text) == Some(digits)
  {
    assert text[..|text|] == text;
  }

  lemma BadChar(text: string, i: nat, digits: seq<Digit>)
    requires i < |text| && ReadAs(text, i, digits) && IndexOf(text[i]).None?
    ensures DigitsOf(text).None?
  {
    DigitsStep(text, i, digits);
    BadPrefix(text, i + 1);
  }

  lemma BadPrefix(text: string, n: nat)
    requires n <= |text| && DigitsOf(text[..n]).None?
    ensures DigitsOf(text).None?
    decreases |text| - n
  {
    if n < |text| {
      assert text[..n + 1][..n] == text[..n];
      BadPrefix(text, n + 1);
    } else {
      assert text[..n] == text;
    }
  }

  /** The bytes written, and then the bits pending in the accumulator, are those of the digits. */
  ghost predicate Gathered(bytes: seq<Byte>, value: nat, bits: nat, digits: seq<Digit>) {
    Flat(bytes, 8) + BitsOf(value, bits) == Flat(digits, 5)
  }

  lemma DigitIn(bytes: seq<Byte>, value: nat, bits: nat, digits: seq<Digit>, d: Digit, width: nat)
    requires width >= 12 && Gathered(bytes, value, bits, digits) && bits < 8
    ensures Gathered(bytes, Shl(value, 5, width) + d, bits + 5, digits + [d])
  {
    Powers();
    FlatAppend(digits, d, 5);
    BitsIn(Flat(bytes, 8), value, bits, Flat(digits, 5), d, 5, width);
  }

  lemma ByteOut(bytes: seq<Byte>, value: nat, bits: nat, digits: seq<Digit>, b: Byte)
    requires Gathered(bytes, value, bits, digits) && 8 <= bits < 13 && b == Low(Shr(value, bits - 8), 8)
    ensures Gathered(bytes + [b], value, bits - 8, digits)
  {
    BitsOut(Flat(bytes, 8), value, bits, Flat(digits, 5), 8);
    FlatAppend(bytes, b, 8);
  }

  lemma AllGathered(bytes: seq<Byte>, value: nat, bits: nat, digits: seq<Digit>)
    requires Gathered(bytes, value, bits, digits) && bits < 8
    ensures Decodes(digits, bytes)
  {
  }

  method Base32Decode(text: string, width: nat) returns (r: Option<seq<Byte>>)
    requires width >= 12
    ensures r.None? <==> DigitsOf(Clean(text)).None?
    ensures r.Some? ==> Decodes(DigitsOf(Clean(text)).value, r.value)
  {
    Powers();
    var clean := Clean(text);
    var bits: nat := 0;
    var value: nat := 0;
    var out: seq<Byte> := [];
    ghost var digits: seq<Digit> := [];
    var i := 0;
    NothingRead(clean);
    assert Gathered(out, value, bits, digits);
    hide Low, Doubled, Shr, Shl, BitsOf, Flat, DigitsOf, IndexOf, Gathered, ReadAs, Decodes;
    while i < |clean|
      invariant 0 <= i <= |clean| && bits < 8
      invariant ReadAs(clean, i, digits) && Gathered(out, value, bits, digits)
    {
      var index := IndexOf(clean[i]);
      if index.None? {
        BadChar(clean, i, digits);
        return None;
      }
      CharRead(clean, i, digits, index.value);
      DigitIn(out, value, bits, digits, index.value, width);
      digits := digits + [index.value];
      value := Shl(value, 5, width) + index.value;
      bits := bits + 5;
      if bits >= 8 {
        var b: Byte := Low(Shr(value, bits - 8), 8);
        ByteOut(out, value, bits, digits, b);
        out := out + [b];
        bits := bits - 8;
      }
      i := i + 1;
    }
    AllRead(clean, digits);
    AllGathered(out, value, bits, digits);
    r := Some(out);
  }

  // ---- The round trip --------------------------------------------------------------------------

  lemma {:induction false} SameBitsSameNumber(a: nat, b: nat, n: nat)
    requires a < Doubled(1, n) && b < Doubled(1, n) && BitsOf(a, n) == BitsOf(b, n)
    ensures a == b
  {
    if n > 0 {
      var x, y := BitsOf(a, n), BitsOf(b, n);
      BitsStep(a, n);
      BitsStep(b, n);
      assert x[..n - 1] == BitsOf(a / 2, n - 1) && y[..n - 1] == BitsOf(b / 2, n - 1);
      assert x[n - 1] == y[n - 1];
      SameBitsSameNumber(a / 2, b / 2, n - 1);
    }
  }

  lemma {:induction false} SameBitsSameBytes(a: seq<Byte>, b: seq<Byte>)
    requires |a| == |b| && Flat(a, 8) == Flat(b, 8)
    ensures a == b
  {
    if a != [] {
      var n := |a| - 1;
      var x := Flat(a, 8);
      assert x[..8 * n] == Flat(a[..n], 8) && x[..8 * n] == Flat(b[..n], 8);
      assert x[8 * n..] == BitsOf(a[n], 8) && x[8 * n..] == BitsOf(b[n], 8);
      SameBitsSameBytes(a[..n], b[..n]);
      Powers();
      SameBitsSameNumber(a[n], b[n], 8);
    }
  }

  lemma {:induction false} SameBitsSameDigits(a: seq<Digit>, b: seq<Digit>)
    requires |a| == |b| && Flat(a, 5) == Flat(b, 5)
    ensures a == b
  {
    if a != [] {
      var n := |a| - 1;
      var x := Flat(a, 5);
      assert x[..5 * n] == Flat(a[..n], 5) && x[..5 * n] == Flat(b[..n], 5);
      assert x[5 * n..] == BitsOf(a[n], 5) && x[5 * n..] == BitsOf(b[n], 5);
      SameBitsSameDigits(a[..n], b[..n]);
      Powers();
      SameBitsSameNumber(a[n], b[n], 5);
    }
  }

  /** There is one encoding of a byte string. */
  lemma EncodingIsUnique(bytes: seq<Byte>, a: seq<Digit>, b: seq<Digit>)
    requires Encodes(bytes, a) && Encodes(bytes, b)
    ensures a == b
  {
    SameBitsSameDigits(a, b);
  }

  lemma {:induction false} CleanText(text: string)
    requires forall c <- text :: !Ignored(c) && Upper(c) == [c]
    ensures Clean(text) == text
  {
    if text != "" {
      CleanText(text[1..]);
      assert [text[0]] + text[1..] == text;
    }
  }

  lemma TextIsClean(digits: seq<Digit>)
    ensures Clean(Text(digits)) == Text(digits)
  {
    forall c | c in Text(digits) ensures !Ignored(c) && Upper(c) == [c] {
      var i :| 0 <= i < |digits| && Text(digits)[i] == c;
      assert c == CharOf(digits[i]);
    }
    CleanText(Text(digits));
  }

  lemma {:induction false} DigitsOfText(digits: seq<Digit>)
    ensures DigitsOf(Text(digits)) == Some(digits)
  {
    if digits != [] {
      var n := |digits| - 1;
      assert Text(digits)[..n] == Text(digits[..n]);
      DigitsOfText(digits[..n]);
      assert IndexOf(CharOf(digits[n])) == Some(digits[n]);
      assert digits[..n] + [digits[n]] == digits;
    }
  }

  /** Decoding what was encoded gives the bytes back, for every byte string. */
  lemma DecodeEncodes(bytes: seq<Byte>, digits: seq<Digit>, decoded: seq<Byte>)
    requires Encodes(bytes, digits) && Decodes(digits, decoded)
    ensures decoded == bytes
  {
    var pad: nat :| pad < 5 && Flat(digits, 5) == Flat(bytes, 8) + Zeros(pad);
    assert |decoded| == |bytes|;
    assert Flat(decoded, 8) == Flat(bytes, 8);
    SameBitsSameBytes(decoded, bytes);
  }

  method RoundTrip(bytes: seq<Byte>) returns (r: Option<seq<Byte>>)
    ensures r == Some(bytes)
  {
    var text := Base32Encode(bytes, WORD_BITS);
    ghost var digits: seq<Digit> :| text == Text(digits) && Encodes(bytes, digits);
    TextIsClean(digits);
    DigitsOfText(digits);
    r := Base32Decode(text, WORD_BITS);
    DecodeEncodes(bytes, digits, r.value);
  }
}
