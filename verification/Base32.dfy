/** The TOTP secret codec (src/common/crypto/totp.ts): base32 without padding (section 6 of RFC 4648). */
module Base32 {
  import opened Common

  type uint32 = x: int | 0 <= x < 0x1_0000_0000
  type byte = x: int | 0 <= x < 256
  type digit = x: int | 0 <= x < 32

  // ---- The 32-bit operators ----
  // Both directions push bits through a 32-bit accumulator that is never masked, so its high bits
  // are garbage most of the time.

  function Times2Pow(v: nat, k: nat): (r: nat) {
    if k == 0 then v else 2 * Times2Pow(v, k - 1)
  }

  /** `(v << k) | low` on 32 bits: `low` only occupies the k bits that the shift cleared. */
  function ShiftIn(v: uint32, k: nat, low: nat): uint32 {
    (Times2Pow(v, k) + low) % 0x1_0000_0000
  }

  /** `v >>> k` */
  function ShiftRight(v: nat, k: nat): (r: nat)
    ensures r <= v
  {
    if k == 0 then v else ShiftRight(v / 2, k - 1)
  }

  /** `v & 31` */
  function LowDigit(v: nat): digit {
    v % 32
  }

  /** `(v >>> k) & 0xff` */
  function ByteAt(v: uint32, k: nat): byte {
    ShiftRight(v, k) % 256
  }

  // ---- Bit strings, most significant bit first ----

  /** The k low bits of v. */
  function Bits(v: nat, k: nat): (s: seq<bool>)
    ensures |s| == k
  {
    if k == 0 then [] else Bits(v / 2, k - 1) + [v % 2 == 1]
  }

  function Value(s: seq<bool>): nat {
    if s == [] then 0
    else 2 * Value(s[..|s| - 1]) + if s[|s| - 1] then 1 else 0
  }

  ghost predicate Fits(v: nat, k: nat) {
    if k == 0 then v == 0 else Fits(v / 2, k - 1)
  }

  lemma {:induction false} BitsOfValue(s: seq<bool>)
    ensures Fits(Value(s), |s|)
    ensures Bits(Value(s), |s|) == s
  {
    if s != [] {
      BitsOfValue(s[..|s| - 1]);
    }
  }

  lemma {:induction false} ValueOfBits(v: nat, k: nat)
    requires Fits(v, k)
    ensures Value(Bits(v, k)) == v
  {
    if k > 0 {
      ValueOfBits(v / 2, k - 1);
      assert Bits(v, k)[..k - 1] == Bits(v / 2, k - 1);
    }
  }

  lemma {:induction false} BitsIgnoreMultiple(v: nat, m: nat, k: nat)
    requires k <= m
    ensures Bits(v % Pow2(m), k) == Bits(v, k)
  {
    if k > 0 {
      ModOfHalf(v, Pow2(m - 1));
      BitsIgnoreMultiple(v / 2, m - 1, k - 1);
    }
  }

  function Pow2(m: nat): (p: nat)
    ensures p > 0
  {
    if m == 0 then 1 else 2 * Pow2(m - 1)
  }

  lemma Pow2Values()
    ensures Pow2(5) == 32 && Pow2(8) == 256 && Pow2(32) == 0x1_0000_0000
  {
    assert Pow2(8) == 256;
    assert Pow2(16) == 65536;
    assert Pow2(24) == 65536 * 256;
  }

  lemma {:induction false} FitsBelow(v: nat, k: nat)
    ensures Fits(v, k) <==> v < Pow2(k)
  {
    if k > 0 {
      FitsBelow(v / 2, k - 1);
    }
  }

  lemma {:induction false} BitsOfConcatenation(v: nat, k: nat, low: nat, j: nat)
    requires Fits(low, j)
    ensures Bits(Times2Pow(v, j) + low, k + j) == Bits(v, k) + Bits(low, j)
  {
    if j > 0 {
      BitsOfConcatenation(v, k, low / 2, j - 1);
      assert (Times2Pow(v, j) + low) / 2 == Times2Pow(v, j - 1) + low / 2;
    }
  }

  lemma {:induction false} BitsSplit(v: nat, k: nat, j: nat)
    ensures Bits(v, k + j) == Bits(ShiftRight(v, j), k) + Bits(v, j)
  {
    if j > 0 {
      BitsSplit(v / 2, k, j - 1);
    }
  }

  // ---- Streams of w-bit groups ----

  ghost predicate AllFit(xs: seq<nat>, w: nat) {
    forall i :: 0 <= i < |xs| ==> Fits(xs[i], w)
  }

  /** The concatenation of the w-bit groups xs. */
  function Stream(xs: seq<nat>, w: nat): seq<bool> {
    if xs == [] then [] else Bits(xs[0], w) + Stream(xs[1..], w)
  }

  /** The whole w-bit groups of a bit string; a shorter rest is dropped. */
  function Groups(s: seq<bool>, w: nat): seq<nat>
    requires w > 0
  {
    if |s| < w then [] else [Value(s[..w])] + Groups(s[w..], w)
  }

  lemma {:induction false} StreamLength(xs: seq<nat>, w: nat)
    ensures |Stream(xs, w)| == |xs| * w
  {
    if xs != [] {
      StreamLength(xs[1..], w);
    }
  }

  lemma {:induction false} StreamAppend(xs: seq<nat>, x: nat, w: nat)
    ensures Stream(xs + [x], w) == Stream(xs, w) + Bits(x, w)
  {
    if xs != [] {
      StreamAppend(xs[1..], x, w);
      assert (xs + [x])[1..] == xs[1..] + [x];
    }
  }

  lemma StreamCons(x: nat, xs: seq<nat>, w: nat)
    ensures Stream([x] + xs, w) == Bits(x, w) + Stream(xs, w)
  {
    assert ([x] + xs)[1..] == xs;
  }

  /** A stream's groups are what it was made of, whatever shorter rest follows. */
  lemma {:induction false} GroupsOfStream(xs: seq<nat>, w: nat, rest: seq<bool>)
    requires AllFit(xs, w) && |rest| < w
    ensures Groups(Stream(xs, w) + rest, w) == xs
  {
    if xs == [] {
      assert Stream(xs, w) + rest == rest;
    } else {
      var t := Stream(xs[1..], w) + rest;
      assert Stream(xs, w) + rest == Bits(xs[0], w) + t;
      GroupsOfStream(xs[1..], w, rest);
      GroupsStartWith(xs[0], t, w);
    }
  }

  lemma GroupsStartWith(x: nat, t: seq<bool>, w: nat)
    requires w > 0 && Fits(x, w)
    ensures Groups(Bits(x, w) + t, w) == [x] + Groups(t, w)
  {
    ValueOfBits(x, w);
    GroupsCons(Bits(x, w), t, w);
  }

  lemma GroupsCons(g: seq<bool>, t: seq<bool>, w: nat)
    requires |g| == w > 0
    ensures Groups(g + t, w) == [Value(g)] + Groups(t, w)
  {
    assert (g + t)[..w] == g && (g + t)[w..] == t;
  }

  lemma {:induction false} StreamOfGroups(s: seq<bool>, w: nat)
    requires w > 0
    ensures AllFit(Groups(s, w), w)
    ensures |Stream(Groups(s, w), w)| <= |s| < |Stream(Groups(s, w), w)| + w
    ensures Stream(Groups(s, w), w) == s[..|Stream(Groups(s, w), w)|]
  {
    if |s| >= w {
      StreamOfGroups(s[w..], w);
      BitsOfValue(s[..w]);
      var gs := Groups(s, w);
      assert gs[1..] == Groups(s[w..], w);
    }
  }

  // ---- The specification of the two directions ----
  // A byte string is the concatenation of its 8-bit groups, a base32 string that of its 5-bit groups.

  const BASE32_ALPHABET: string := "ABCDEFGHIJKLMNOPQRSTUVWXYZ234567"

  /** `BASE32_ALPHABET.indexOf(c)` */
  function IndexOf(c: char): (i: int)
    ensures -1 <= i < 32
  {
    if 'A' <= c <= 'Z' then c as int - 'A' as int
    else if '2' <= c <= '7' then c as int - '2' as int + 26
    else -1
  }

  /** The index is where the character stands, and -1 when it stands nowhere. */
  lemma IndexOfIsThePlace(c: char)
    ensures IndexOf(c) >= 0 ==> BASE32_ALPHABET[IndexOf(c)] == c
    ensures IndexOf(c) < 0 ==> forall d: digit :: BASE32_ALPHABET[d] != c
  {
    forall d: digit
      ensures BASE32_ALPHABET[d] == c ==> IndexOf(c) == d
    {
      AlphabetAt(d);
    }
  }

  lemma AlphabetAt(d: digit)
    ensures BASE32_ALPHABET[d] as int == if d < 26 then 'A' as int + d else '2' as int + (d - 26)
  {
  }

  lemma IndexOfAlphabet(d: digit)
    ensures IndexOf(BASE32_ALPHABET[d]) == d
  {
    AlphabetAt(d);
  }

  function Chars(ds: seq<digit>): (s: string) {
    seq(|ds|, i requires 0 <= i < |ds| => BASE32_ALPHABET[ds[i]])
  }

  function Zeros(n: nat): (s: seq<bool>)
    ensures |s| == n
  {
    seq(n, _ => false)
  }

  /** The bits of a byte string, padded with zeros to whole 5-bit groups. */
  function PaddedBits(bytes: seq<byte>): seq<bool> {
    Stream(bytes, 8) + Zeros((-8 * |bytes|) % 5)
  }

  lemma {:induction false} GroupsAreDigits(s: seq<bool>)
    ensures forall i :: 0 <= i < |Groups(s, 5)| ==> Groups(s, 5)[i] < 32
  {
    StreamOfGroups(s, 5);
    Pow2Values();
    forall i | 0 <= i < |Groups(s, 5)|
      ensures Groups(s, 5)[i] < 32
    {
      FitsBelow(Groups(s, 5)[i], 5);
    }
  }

  /** Section 6 of RFC 4648, unpadded form: the 5-bit groups of the padded bits, spelled in the alphabet. */
  function Encoded(bytes: seq<byte>): string {
    GroupsAreDigits(PaddedBits(bytes));
    Chars(Groups(PaddedBits(bytes), 5))
  }

  lemma ValueOfOneMore(s: seq<bool>, b: bool)
    ensures Value(s + [b]) == 2 * Value(s) + if b then 1 else 0
  {
    assert (s + [b])[..|s|] == s;
  }

  /** The first bit counts most. */
  lemma ValueOfFive(a: bool, b: bool, c: bool, d: bool, e: bool)
    ensures Value([a, b, c, d, e]) == (if a then 16 else 0) + (if b then 8 else 0) + (if c then 4 else 0)
                                      + (if d then 2 else 0) + if e then 1 else 0
  {
    assert [a] == [] + [a] && [a, b] == [a] + [b] && [a, b, c] == [a, b] + [c];
    assert [a, b, c, d] == [a, b, c] + [d] && [a, b, c, d, e] == [a, b, c, d] + [e];
    assert Value([]) == 0;
    hide Value;
    ValueOfOneMore([], a);
    ValueOfOneMore([a], b);
    ValueOfOneMore([a, b], c);
    ValueOfOneMore([a, b, c], d);
    ValueOfOneMore([a, b, c, d], e);
  }

  lemma BitsOfF()
    ensures Stream([0x66], 8) == [false, true, true, false, false, true, true, false]
  {
    var high, low := [false, true, true, false, false], [true, true, false];
    ValueOfFive(false, true, true, false, false);
    BitsOfValue(high);
    hide Value;
    assert Bits(0x66, 8) == Bits(12, 5) + low;
    assert high + low == [false, true, true, false, false, true, true, false];
    assert [0x66][1..] == [];
  }

  /** The first of the examples in section 10 of RFC 4648, without its padding: "f" is "MY". */
  lemma KnownEncoding()
    ensures Encoded([0x66]) == "MY"
  {
    var m, y := [false, true, true, false, false], [true, true, false, false, false];
    BitsOfF();
    ValueOfFive(false, true, true, false, false);
    ValueOfFive(true, true, false, false, false);
    hide Stream, Bits, Value, IndexOf;
    var bytes: seq<byte> := [0x66];
    assert Zeros(2) == [false, false];
    assert PaddedBits(bytes) == m + y;
    GroupsCons(m, y, 5);
    assert y == y + [];
    GroupsCons(y, [], 5);
    assert Groups([], 5) == [];
    assert Groups(PaddedBits(bytes), 5) == [12, 24];
  }

  datatype DecodeError = InvalidBase32Character

  predicate IsSpace(c: char) {
    || '\t' <= c <= '\r'
    || c in " \U{a0}\U{1680}\U{2028}\U{2029}\U{202f}\U{205f}\U{3000}\U{feff}"
    || '\U{2000}' <= c <= '\U{200a}'
  }

  /** The white space and line ends of ECMAScript, by their code units. */
  lemma SpacesAre(c: char)
    ensures IsSpace(c)
            <==> || c as int in {9, 10, 11, 12, 13, 32, 160, 5760, 8232, 8233, 8239, 8287, 12288, 65279}
                 || 8192 <= c as int <= 8202
  {
  }

  /** `s.replace(/=+$/g, '')` */
  function StripPadding(s: string): string {
    if s != [] && s[|s| - 1] == '=' then StripPadding(s[..|s| - 1]) else s
  }

  /** `s.replace(/\s/g, '').toUpperCase()`, where `upper` is the Unicode upper-casing of one character. */
  function Squeeze(s: string, upper: char -> string): string {
    if s == [] then []
    else (if IsSpace(s[0]) then [] else upper(s[0])) + Squeeze(s[1..], upper)
  }

  function Cleaned(input: string, upper: char -> string): string {
    Squeeze(StripPadding(input), upper)
  }

  predicate InAlphabet(s: string) {
    forall i :: 0 <= i < |s| ==> IndexOf(s[i]) >= 0
  }

  function Digits(s: string): (ds: seq<digit>)
    requires InAlphabet(s)
    ensures |ds| == |s|
  {
    seq(|s|, i requires 0 <= i < |s| => IndexOf(s[i]))
  }

  function Decoded(input: string, upper: char -> string): Result<seq<nat>, DecodeError> {
    DecodedClean(Cleaned(input, upper))
  }

  function DecodedClean(cleaned: string): Result<seq<nat>, DecodeError> {
    if InAlphabet(cleaned) then Ok(Groups(Stream(Digits(cleaned), 5), 8)) else Err(InvalidBase32Character)
  }

  // ---- The two loops ----

  /** The bits s taken in so far: whole groups already put out, the rest pending in the unmasked accumulator. */
  ghost predicate Pending(s: seq<bool>, out: seq<nat>, w: nat, value: uint32, bits: nat) {
    s == Stream(out, w) + Bits(value, bits)
  }

  lemma PushStep(xs: seq<nat>, j: nat, x: nat, out: seq<nat>, w: nat, value: uint32, bits: nat)
    requires Pending(Stream(xs, j), out, w, value, bits) && Fits(x, j) && bits + j <= 32
    ensures Pending(Stream(xs + [x], j), out, w, ShiftIn(value, j, x), bits + j)
  {
    hide Stream, Bits, Fits, Times2Pow;
    StreamAppend(xs, x, j);
    BitsOfConcatenation(value, bits, x, j);
    Pow2Values();
    BitsIgnoreMultiple(Times2Pow(value, j) + x, 32, bits + j);
  }

  lemma PopStep(s: seq<bool>, out: seq<nat>, w: nat, value: uint32, bits: nat)
    requires Pending(s, out, w, value, bits) && w <= bits
    ensures Pending(s, out + [ShiftRight(value, bits - w) % Pow2(w)], w, value, bits - w)
  {
    BitsSplit(value, w, bits - w);
    BitsIgnoreMultiple(ShiftRight(value, bits - w), w, w);
    StreamAppend(out, ShiftRight(value, bits - w) % Pow2(w), w);
  }

  /** The encoder fills its last, incomplete group up with zero bits. */
  lemma FlushStep(bytes: seq<byte>, out: seq<nat>, value: uint32, bits: nat)
    requires Pending(Stream(bytes, 8), out, 5, value, bits) && bits < 5
    ensures bits == 0 ==> Stream(out, 5) == PaddedBits(bytes)
    ensures bits > 0 ==> Stream(out + [ShiftIn(value, 5 - bits, 0) % 32], 5) == PaddedBits(bytes)
  {
    hide Stream, Bits, ShiftIn;
    PendingLength(bytes, out, value, bits);
    if bits > 0 {
      FlushedBits(value, bits);
      StreamAppend(out, ShiftIn(value, 5 - bits, 0) % 32, 5);
    }
  }

  /** How many zeros the last group lacks. */
  lemma PendingLength(bytes: seq<byte>, out: seq<nat>, value: uint32, bits: nat)
    requires Pending(Stream(bytes, 8), out, 5, value, bits) && bits < 5
    ensures (-8 * |bytes|) % 5 == if bits == 0 then 0 else 5 - bits
  {
    hide Stream, Bits;
    StreamLength(bytes, 8);
    StreamLength(out, 5);
    assert 8 * |bytes| == 5 * |out| + bits;
    if bits == 0 {
      DivModUnique(-8 * |bytes|, 5, -|out|, 0);
    } else {
      DivModUnique(-8 * |bytes|, 5, -|out| - 1, 5 - bits);
    }
  }

  lemma FlushedBits(value: uint32, bits: nat)
    requires 0 < bits < 5
    ensures Bits(ShiftIn(value, 5 - bits, 0) % 32, 5) == Bits(value, bits) + Zeros(5 - bits)
  {
    var k := 5 - bits;
    ZeroFits(k);
    BitsOfConcatenation(value, bits, 0, k);
    Pow2Values();
    BitsIgnoreMultiple(Times2Pow(value, k), 32, 5);
    BitsIgnoreMultiple(ShiftIn(value, k, 0), 5, 5);
  }

  lemma {:induction false} ZeroFits(k: nat)
    ensures Fits(0, k) && Bits(0, k) == Zeros(k)
  {
    if k > 0 {
      ZeroFits(k - 1);
    }
  }

  lemma SmallFits(x: nat)
    ensures x < 32 ==> Fits(x, 5)
    ensures x < 256 ==> Fits(x, 8)
  {
    Pow2Values();
    FitsBelow(x, 5);
    FitsBelow(x, 8);
  }

  lemma DigitsComeBack(out: seq<digit>)
    ensures Groups(Stream(out, 5), 5) == out
  {
    forall i | 0 <= i < |out|
      ensures Fits(out[i], 5)
    {
      SmallFits(out[i]);
    }
    GroupsOfStream(out, 5, []);
    assert Stream(out, 5) + [] == Stream(out, 5);
  }

  lemma BytesComeBack(bytes: seq<byte>, rest: seq<bool>)
    requires |rest| < 8
    ensures Groups(Stream(bytes, 8) + rest, 8) == bytes
  {
    forall i | 0 <= i < |bytes|
      ensures Fits(bytes[i], 8)
    {
      SmallFits(bytes[i]);
    }
    GroupsOfStream(bytes, 8, rest);
  }

  /** The bytes before place n are taken in: their bits are out as 5-bit groups, but for the pending ones. */
  ghost predicate Encoding(buffer: seq<byte>, n: nat, out: seq<digit>, value: uint32, bits: nat) {
    n <= |buffer| && Pending(Stream(buffer[..n], 8), out, 5, value, bits)
  }

  lemma EncodeStarts(buffer: seq<byte>)
    ensures Encoding(buffer, 0, [], 0, 0) && Chars([]) == ""
  {
  }

  lemma EncodePush(buffer: seq<byte>, n: nat, out: seq<digit>, value: uint32, bits: nat)
    requires Encoding(buffer, n, out, value, bits) && bits < 5 && n < |buffer|
    ensures Encoding(buffer, n + 1, out, ShiftIn(value, 8, buffer[n]), bits + 8)
  {
    SmallFits(buffer[n]);
    PushStep(buffer[..n], 8, buffer[n], out, 5, value, bits);
    assert buffer[..n + 1] == buffer[..n] + [buffer[n]];
  }

  lemma EncodePop(buffer: seq<byte>, n: nat, out: seq<digit>, value: uint32, bits: nat)
    requires Encoding(buffer, n, out, value, bits) && bits >= 5
    ensures Encoding(buffer, n, out + [LowDigit(ShiftRight(value, bits - 5))], value, bits - 5)
  {
    Pow2Values();
    PopStep(Stream(buffer[..n], 8), out, 5, value, bits);
  }

  lemma EncodeEnds(buffer: seq<byte>, out: seq<digit>, value: uint32, bits: nat)
    requires Encoding(buffer, |buffer|, out, value, bits) && bits < 5
    ensures bits == 0 ==> Chars(out) == Encoded(buffer)
    ensures bits > 0 ==> Chars(out + [LowDigit(ShiftIn(value, 5 - bits, 0))]) == Encoded(buffer)
  {
    assert buffer[..|buffer|] == buffer;
    FlushStep(buffer, out, value, bits);
    DigitsComeBack(if bits == 0 then out else out + [LowDigit(ShiftIn(value, 5 - bits, 0))]);
  }

  lemma OneMoreCharacter(out: seq<digit>, d: digit)
    ensures Chars(out + [d]) == Chars(out) + [BASE32_ALPHABET[d]]
  {
  }

  method Base32Encode(buffer: seq<byte>) returns (output: string)
    ensures output == Encoded(buffer)
  {
    hide Encoding, Encoded, Chars, LowDigit;
    var bits := 0;
    var value: uint32 := 0;
    output := "";
    ghost var out: seq<digit> := [];
    EncodeStarts(buffer);
    for n := 0 to |buffer|
      invariant 0 <= bits < 5 && output == Chars(out) && Encoding(buffer, n, out, value, bits)
    {
      EncodePush(buffer, n, out, value, bits);
      value := ShiftIn(value, 8, buffer[n]);
      bits := bits + 8;
      while bits >= 5
        invariant 0 <= bits < 13 && output == Chars(out) && Encoding(buffer, n + 1, out, value, bits)
      {
        EncodePop(buffer, n + 1, out, value, bits);
        var d := LowDigit(ShiftRight(value, bits - 5));
        OneMoreCharacter(out, d);
        output := output + [BASE32_ALPHABET[d]];
        out := out + [d];
        bits := bits - 5;
      }
    }
    EncodeEnds(buffer, out, value, bits);
    if bits > 0 {
      var d := LowDigit(ShiftIn(value, 5 - bits, 0));
      OneMoreCharacter(out, d);
      output := output + [BASE32_ALPHABET[d]];
    }
  }

  /** The characters before place n are taken in: their 5-bit groups are out as bytes, but for the pending bits. */
  ghost predicate Decoding(cleaned: string, n: nat, bytes: seq<byte>, value: uint32, bits: nat) {
    && n <= |cleaned| && InAlphabet(cleaned[..n])
    && Pending(Stream(Digits(cleaned[..n]), 5), bytes, 8, value, bits)
  }

  lemma DecodeStarts(cleaned: string)
    ensures Decoding(cleaned, 0, [], 0, 0)
  {
  }

  lemma DecodePush(cleaned: string, n: nat, bytes: seq<byte>, value: uint32, bits: nat)
    requires Decoding(cleaned, n, bytes, value, bits) && bits < 8 && n < |cleaned| && IndexOf(cleaned[n]) >= 0
    ensures Decoding(cleaned, n + 1, bytes, ShiftIn(value, 5, IndexOf(cleaned[n])), bits + 5)
  {
    hide Stream, IndexOf, ShiftIn, Fits;
    var idx := IndexOf(cleaned[n]);
    SmallFits(idx);
    PushStep(Digits(cleaned[..n]), 5, idx, bytes, 8, value, bits);
    assert Digits(cleaned[..n + 1]) == Digits(cleaned[..n]) + [idx];
  }

  lemma DecodePop(cleaned: string, n: nat, bytes: seq<byte>, value: uint32, bits: nat)
    requires Decoding(cleaned, n, bytes, value, bits) && bits >= 8
    ensures Decoding(cleaned, n, bytes + [ByteAt(value, bits - 8)], value, bits - 8)
  {
    Pow2Values();
    PopStep(Stream(Digits(cleaned[..n]), 5), bytes, 8, value, bits);
  }

  lemma DecodeEnds(cleaned: string, bytes: seq<byte>, value: uint32, bits: nat)
    requires Decoding(cleaned, |cleaned|, bytes, value, bits) && bits < 8
    ensures DecodedClean(cleaned) == Ok(bytes)
  {
    assert cleaned[..|cleaned|] == cleaned;
    BytesComeBack(bytes, Bits(value, bits));
  }

  lemma DecodeFails(cleaned: string, n: nat)
    requires n < |cleaned| && IndexOf(cleaned[n]) == -1
    ensures DecodedClean(cleaned) == Err(InvalidBase32Character)
  {
  }

  method Base32Decode(input: string, upper: char -> string) returns (r: Result<seq<nat>, DecodeError>)
    ensures r == Decoded(input, upper)
  {
    hide Decoding, DecodedClean, Cleaned;
    var cleaned := Cleaned(input, upper);
    var bits := 0;
    var value: uint32 := 0;
    var bytes: seq<byte> := [];
    DecodeStarts(cleaned);
    for n := 0 to |cleaned|
      invariant 0 <= bits < 8 && Decoding(cleaned, n, bytes, value, bits)
    {
      var idx := IndexOf(cleaned[n]);
      if idx == -1 {
        DecodeFails(cleaned, n);
        return Err(InvalidBase32Character);
      }
      DecodePush(cleaned, n, bytes, value, bits);
      value := ShiftIn(value, 5, idx);
      bits := bits + 5;
      if bits >= 8 {
        DecodePop(cleaned, n + 1, bytes, value, bits);
        bytes := bytes + [ByteAt(value, bits - 8)];
        bits := bits - 8;
      }
    }
    DecodeEnds(cleaned, bytes, value, bits);
    r := Ok(bytes);
  }

  // ---- What the codec promises ----

  ghost predicate Foreign(c: char) {
    forall d: digit :: BASE32_ALPHABET[d] != c
  }

  /** Decoding fails exactly on a character that is not in the alphabet. */
  lemma DecodingFailsIff(input: string, upper: char -> string)
    ensures Decoded(input, upper).Err?
            <==> exists i :: 0 <= i < |Cleaned(input, upper)| && Foreign(Cleaned(input, upper)[i])
  {
    var cleaned := Cleaned(input, upper);
    forall i | 0 <= i < |cleaned|
      ensures Foreign(cleaned[i]) <==> IndexOf(cleaned[i]) < 0
    {
      IndexOfIsThePlace(cleaned[i]);
      if IndexOf(cleaned[i]) >= 0 {
        var d: digit := IndexOf(cleaned[i]);
        assert BASE32_ALPHABET[d] == cleaned[i];
      }
    }
  }

  /** ceil(8n/5) characters, all of the alphabet, standing for the padded bits. */
  lemma EncodedShape(bytes: seq<byte>)
    ensures |Encoded(bytes)| == (8 * |bytes| + 4) / 5
    ensures InAlphabet(Encoded(bytes))
    ensures Stream(Digits(Encoded(bytes)), 5) == PaddedBits(bytes)
  {
    var s := PaddedBits(bytes);
    var ds := Groups(s, 5);
    hide PaddedBits, Groups, Stream;
    GroupsAreDigits(s);
    PaddedLength(bytes);
    WholeGroups(s);
    StreamLength(ds, 5);
    DigitsOfChars(ds);
  }

  lemma PaddedLength(bytes: seq<byte>)
    ensures |PaddedBits(bytes)| == 5 * ((8 * |bytes| + 4) / 5)
  {
    StreamLength(bytes, 8);
  }

  /** A bit string of whole groups is the concatenation of them. */
  lemma {:induction false} WholeGroups(s: seq<bool>)
    requires |s| % 5 == 0
    ensures Stream(Groups(s, 5), 5) == s
    decreases |s|
  {
    if |s| >= 5 {
      var g, t := s[..5], s[5..];
      assert s == g + t;
      WholeGroups(t);
      GroupsCons(g, t, 5);
      BitsOfValue(g);
      StreamCons(Value(g), Groups(t, 5), 5);
    }
  }

  lemma DigitsOfChars(ds: seq<digit>)
    ensures InAlphabet(Chars(ds)) && Digits(Chars(ds)) == ds
  {
    forall i | 0 <= i < |ds|
      ensures IndexOf(Chars(ds)[i]) == ds[i]
    {
      IndexOfAlphabet(ds[i]);
    }
  }

  /** Any text that cleans up to an encoding decodes to exactly the bytes that were encoded. */
  lemma RoundTrip(bytes: seq<byte>, input: string, upper: char -> string)
    requires Cleaned(input, upper) == Encoded(bytes)
    ensures Decoded(input, upper) == Ok(bytes)
  {
    EncodedShape(bytes);
    BytesComeBack(bytes, Zeros((-8 * |bytes|) % 5));
  }

  ghost predicate AsciiUpper(upper: char -> string) {
    && (forall c: char :: 'A' <= c <= 'Z' || '2' <= c <= '7' || c == '=' ==> upper(c) == [c])
    && (forall c: char :: 'a' <= c <= 'z' ==> upper(c) == [(c as int - 32) as char])
  }

  ghost predicate AllPadding(s: string) {
    forall i :: 0 <= i < |s| ==> s[i] == '='
  }

  /** One way to write a base32 text down: any letter case, spaces anywhere before the padding. */
  ghost predicate Spells(input: string, text: string) {
    if input == [] then text == []
    else
      || (IsSpace(input[0]) && Spells(input[1..], text))
      || (&& text != []
          && (input[0] == text[0] || ('a' <= input[0] <= 'z' && text[0] as int == input[0] as int - 32))
          && Spells(input[1..], text[1..]))
  }

  lemma {:induction false} SpellingSqueezes(input: string, text: string, upper: char -> string)
    requires AsciiUpper(upper) && InAlphabet(text) && Spells(input, text)
    ensures Squeeze(input, upper) == text
  {
    if input != [] {
      if IsSpace(input[0]) && Spells(input[1..], text) {
        SpellingSqueezes(input[1..], text, upper);
      } else {
        SpellingSqueezes(input[1..], text[1..], upper);
        LetterSqueezes(input[0], text[0], upper);
        assert text == [text[0]] + text[1..];
      }
    }
  }

  lemma LetterSqueezes(c: char, t: char, upper: char -> string)
    requires AsciiUpper(upper) && IndexOf(t) >= 0
    requires c == t || ('a' <= c <= 'z' && t as int == c as int - 32)
    ensures !IsSpace(c) && upper(c) == [t] && c != '='
  {
  }

  lemma {:induction false} SpellingHasNoPadding(input: string, text: string)
    requires InAlphabet(text) && Spells(input, text)
    ensures '=' !in input
  {
    if input != [] {
      if IsSpace(input[0]) && Spells(input[1..], text) {
        SpellingHasNoPadding(input[1..], text);
      } else {
        SpellingHasNoPadding(input[1..], text[1..]);
        assert IndexOf(text[0]) >= 0;
      }
      assert input == [input[0]] + input[1..];
    }
  }

  /** The tolerance the decoder documents: however an encoding is written down, its bytes come back. */
  lemma RoundTripOfAnySpelling(bytes: seq<byte>, input: string, padding: string, upper: char -> string)
    requires AsciiUpper(upper) && Spells(input, Encoded(bytes)) && AllPadding(padding)
    ensures Decoded(input + padding, upper) == Ok(bytes)
  {
    EncodedShape(bytes);
    SpellingSqueezes(input, Encoded(bytes), upper);
    SpellingHasNoPadding(input, Encoded(bytes));
    StripPaddingAfter(input, padding);
    RoundTrip(bytes, input + padding, upper);
  }

  lemma {:induction false} StripPaddingAfter(s: string, pad: string)
    requires AllPadding(pad)
    ensures StripPadding(s + pad) == StripPadding(s)
  {
    if pad == [] {
      assert s + pad == s;
    } else {
      assert (s + pad)[..|s + pad| - 1] == s + pad[..|pad| - 1];
      StripPaddingAfter(s, pad[..|pad| - 1]);
    }
  }

  lemma {:induction false} StripPaddingBefore(a: string, b: string)
    requires !AllPadding(b)
    ensures StripPadding(a + b) == a + StripPadding(b)
  {
    if b[|b| - 1] == '=' {
      assert (a + b)[..|a + b| - 1] == a + b[..|b| - 1];
      StripPaddingBefore(a, b[..|b| - 1]);
    }
  }

  lemma {:induction false} StripPaddingIsPrefix(s: string)
    ensures var n := |StripPadding(s)|;
            n <= |s| && StripPadding(s) == s[..n] && AllPadding(s[n..]) && (n > 0 ==> s[n - 1] != '=')
  {
    if s != [] && s[|s| - 1] == '=' {
      var rest := s[..|s| - 1];
      StripPaddingIsPrefix(rest);
      var n := |StripPadding(rest)|;
      assert s[n..] == rest[n..] + "=";
    } else {
      assert StripPadding(s) == s == s[..|s|];
    }
  }

  lemma {:induction false} SqueezeConcat(a: string, b: string, upper: char -> string)
    ensures Squeeze(a + b, upper) == Squeeze(a, upper) + Squeeze(b, upper)
  {
    if a == [] {
      assert a + b == b;
    } else {
      assert (a + b)[1..] == a[1..] + b;
      SqueezeConcat(a[1..], b, upper);
    }
  }

  lemma {:induction false} SqueezePadding(s: string, upper: char -> string)
    requires AllPadding(s) && AsciiUpper(upper)
    ensures Squeeze(s, upper) == s
  {
    if s != [] {
      SqueezePadding(s[1..], upper);
      assert s == [s[0]] + s[1..];
    }
  }

  /**
   Padding is stripped before spaces are. So an inserted space is ignored exactly
   unless it follows a '=' and only padding comes after it.
   */
  lemma InsertedSpaceIsIgnoredIff(a: string, space: char, b: string, upper: char -> string)
    requires IsSpace(space) && AsciiUpper(upper)
    ensures Cleaned(a + [space] + b, upper) == Cleaned(a + b, upper)
            <==> !(a != [] && a[|a| - 1] == '=' && AllPadding(b))
  {
    SpaceSqueezesAway(a, space, upper);
    if !AllPadding(b) {
      StripPaddingBefore(a, b);
      StripPaddingBefore(a + [space], b);
      SqueezeConcat(a, StripPadding(b), upper);
      SqueezeConcat(a + [space], StripPadding(b), upper);
    } else {
      StripPaddingAfter(a, b);
      StripPaddingAfter(a + [space], b);
      StrippingShortens(a, upper);
    }
  }

  lemma SpaceSqueezesAway(a: string, space: char, upper: char -> string)
    requires IsSpace(space)
    ensures Squeeze(a + [space], upper) == Squeeze(a, upper)
  {
    SqueezeConcat(a, [space], upper);
    assert Squeeze([space], upper) == [];
  }

  lemma StrippingShortens(a: string, upper: char -> string)
    requires AsciiUpper(upper)
    ensures Squeeze(StripPadding(a), upper) == Squeeze(a, upper) <==> !(a != [] && a[|a| - 1] == '=')
  {
    StripPaddingIsPrefix(a);
    var n := |StripPadding(a)|;
    assert a == a[..n] + a[n..];
    SqueezeConcat(a[..n], a[n..], upper);
    SqueezePadding(a[n..], upper);
  }

  /** The comment on the decoder promises that spaces are tolerated; behind the padding they make it fail. */
  lemma SpaceAfterPaddingIsRejected(a: string, space: char, b: string, upper: char -> string)
    requires IsSpace(space) && AsciiUpper(upper)
    requires a != [] && a[|a| - 1] == '=' && AllPadding(b)
    ensures Decoded(a + [space] + b, upper) == Err(InvalidBase32Character)
  {
    var cleaned := Squeeze(a, upper);
    StripPaddingAfter(a + [space], b);
    assert (a + [space])[|a|] == space != '=';
    SpaceSqueezesAway(a, space, upper);
    PaddingStaysLast(a, upper);
    assert IndexOf(cleaned[|cleaned| - 1]) < 0;
  }

  lemma PaddingStaysLast(a: string, upper: char -> string)
    requires AsciiUpper(upper) && a != [] && a[|a| - 1] == '='
    ensures var s := Squeeze(a, upper); s != [] && s[|s| - 1] == '='
  {
    var n := |a| - 1;
    assert a == a[..n] + "=";
    SqueezeConcat(a[..n], "=", upper);
    SqueezePadding("=", upper);
  }
}
