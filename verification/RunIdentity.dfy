/** Run identities: sixteen random bytes written as twenty-six base32 symbols.
    Section 6 of RFC 4648 defines the encoding; here it is unpadded and lower-case. */
module RunIdentity {

  type Byte = x: int | 0 <= x < 256 witness 0

  // ------------------------------------------------------------ numbers in bits

  function Pow2(n: nat): (p: nat)
    ensures p > 0
  {
    if n == 0 then 1 else 2 * Pow2(n - 1)
  }

  lemma {:induction false} Pow2Add(a: nat, b: nat)
    ensures Pow2(a + b) == Pow2(a) * Pow2(b)
  {
    if a == 0 {
      MulOne(Pow2(b));
    } else {
      Pow2Add(a - 1, b);
      Pow2Next(a + b);
      Pow2Next(a);
      hide Pow2;
      calc {
        Pow2(a + b);
        2 * Pow2((a - 1) + b);
        2 * (Pow2(a - 1) * Pow2(b));
        { MulShift(2, Pow2(a - 1), Pow2(b)); }
        (2 * Pow2(a - 1)) * Pow2(b);
        Pow2(a) * Pow2(b);
      }
    }
  }

  lemma Pow2Next(n: nat)
    requires n > 0
    ensures Pow2(n) == 2 * Pow2(n - 1)
  {
  }

  lemma MulOne(p: int)
    ensures 1 * p == p
  {
  }

  lemma Widths()
    ensures Pow2(3) == 8 && Pow2(5) == 32 && Pow2(8) == 256
  {
    assert Pow2(3) == 2 * Pow2(2) && Pow2(2) == 2 * Pow2(1) && Pow2(1) == 2;
    assert Pow2(5) == 2 * Pow2(4) && Pow2(4) == 2 * Pow2(3);
    assert Pow2(8) == 2 * Pow2(7) && Pow2(7) == 2 * Pow2(6) && Pow2(6) == 2 * Pow2(5);
  }

  lemma MulMono(a: int, b: int, q: int)
    requires a <= b && q >= 0
    ensures a * q <= b * q
  {
  }

  lemma MulShift(a: int, p: int, q: int)
    ensures (a * p) * q == a * (p * q)
  {
  }

  lemma MulAdd(a: int, b: int, q: int)
    ensures (a + b) * q == a * q + b * q
  {
  }

  function Quotient(v: nat, q: nat): nat
    requires q > 0
  {
    v / q
  }

  function Remainder(v: nat, q: nat): (r: nat)
    requires q > 0
    ensures r < q
  {
    v % q
  }

  lemma Divides(v: nat, q: nat)
    requires q > 0
    ensures Quotient(v, q) * q + Remainder(v, q) == v
  {
  }

  /** Digits of w bits each, the most significant first. */
  ghost predicate Digits(w: nat, digits: seq<int>) {
    forall i :: 0 <= i < |digits| ==> 0 <= digits[i] < Pow2(w)
  }

  ghost function Number(w: nat, digits: seq<int>): int {
    if digits == [] then 0 else Number(w, digits[..|digits| - 1]) * Pow2(w) + digits[|digits| - 1]
  }

  lemma Positional(n: int, d: int, p: int, q: int)
    requires 0 <= n < p && 0 <= d < q
    ensures 0 <= n * q + d < p * q
  {
    MulMono(n + 1, p, q);
    MulAdd(n, 1, q);
    MulMono(0, n, q);
  }

  /** n digits of w bits. */
  function Bits(w: nat, n: nat): nat {
    if n == 0 then 0 else Bits(w, n - 1) + w
  }

  lemma {:induction false} BitsOfWidths(n: nat)
    ensures Bits(5, n) == 5 * n && Bits(8, n) == 8 * n
  {
    if n > 0 {
      BitsOfWidths(n - 1);
    }
  }

  lemma {:induction false} NumberBounds(w: nat, digits: seq<int>)
    requires Digits(w, digits)
    ensures 0 <= Number(w, digits) < Pow2(Bits(w, |digits|))
  {
    if digits != [] {
      var front := digits[..|digits| - 1];
      NumberBounds(w, front);
      Pow2Add(Bits(w, |front|), w);
      hide Pow2;
      Positional(Number(w, front), digits[|digits| - 1], Pow2(Bits(w, |front|)), Pow2(w));
    }
  }

  lemma SplitLess(q: int, a: int, b: int, c: int, d: int)
    requires q > 0 && 0 <= b < q && 0 <= d < q && a < c
    ensures a * q + b < c * q + d
  {
    MulMono(a + 1, c, q);
    MulAdd(a, 1, q);
  }

  lemma Split(q: int, a: int, b: int, c: int, d: int)
    requires q > 0 && 0 <= b < q && 0 <= d < q && a * q + b == c * q + d
    ensures a == c && b == d
  {
    if a < c {
      SplitLess(q, a, b, c, d);
    } else if c < a {
      SplitLess(q, c, d, a, b);
    }
  }

  /** A number has one way of being written with so many digits. */
  lemma {:induction false} NumberUnique(w: nat, a: seq<int>, b: seq<int>)
    requires Digits(w, a) && Digits(w, b) && |a| == |b| && Number(w, a) == Number(w, b)
    ensures a == b
  {
    if a != [] {
      var n := |a| - 1;
      Split(Pow2(w), Number(w, a[..n]), a[n], Number(w, b[..n]), b[n]);
      hide Pow2;
      NumberUnique(w, a[..n], b[..n]);
      assert a == a[..n] + [a[n]] && b == b[..n] + [b[n]];
    }
  }

  ghost function DigitsOf(w: nat, n: nat, v: nat): seq<int> {
    if n == 0 then [] else DigitsOf(w, n - 1, Quotient(v, Pow2(w))) + [Remainder(v, Pow2(w))]
  }

  lemma QuotientLess(v: nat, q: nat, p: nat)
    requires q > 0 && v < p * q
    ensures Quotient(v, q) < p
  {
    Divides(v, q);
    if p <= Quotient(v, q) {
      MulMono(p, Quotient(v, q), q);
    }
  }

  /** And every number that fits can be written so. */
  lemma {:induction false} DigitsOfNumber(w: nat, n: nat, v: nat)
    requires v < Pow2(Bits(w, n))
    ensures |DigitsOf(w, n, v)| == n && Digits(w, DigitsOf(w, n, v)) && Number(w, DigitsOf(w, n, v)) == v
  {
    if n > 0 {
      var q := Pow2(w);
      Pow2Add(Bits(w, n - 1), w);
      QuotientLess(v, q, Pow2(Bits(w, n - 1)));
      DigitsOfNumber(w, n - 1, Quotient(v, q));
      Divides(v, q);
      hide Pow2, Quotient, Remainder;
      assert DigitsOf(w, n, v)[..n - 1] == DigitsOf(w, n - 1, Quotient(v, q));
    }
  }

  lemma {:induction false} NumberConcat(w: nat, a: seq<int>, b: seq<int>)
    ensures Number(w, a + b) == Number(w, a) * Pow2(Bits(w, |b|)) + Number(w, b)
  {
    if b == [] {
      assert a + b == a;
    } else {
      var front := b[..|b| - 1];
      NumberConcat(w, a, front);
      assert (a + b)[..|a + b| - 1] == a + front;
      Pow2Add(Bits(w, |front|), w);
      hide Pow2;
      assert Number(w, a + b) == Number(w, a + front) * Pow2(w) + b[|front|];
      assert Number(w, b) == Number(w, front) * Pow2(w) + b[|front|];
      hide Number;
      MulAdd(Number(w, a) * Pow2(Bits(w, |front|)), Number(w, front), Pow2(w));
      MulShift(Number(w, a), Pow2(Bits(w, |front|)), Pow2(w));
    }
  }

  // --------------------------------------------------------------- the alphabet

  function Symbol(i: nat): char
    requires i < 32
  {
    if i < 26 then 'a' + i as char else '2' + (i - 26) as char
  }

  predicate IsSymbol(c: char) {
    'a' <= c <= 'z' || '2' <= c <= '7'
  }

  /** strings.IndexByte on the alphabet. */
  function Index(c: char): (i: int)
    ensures IsSymbol(c) <==> 0 <= i
    ensures i < 32
  {
    if 'a' <= c <= 'z' then (c - 'a') as int else if '2' <= c <= '7' then (c - '2') as int + 26 else -1
  }

  lemma IndexOfSymbol(i: nat)
    requires i < 32
    ensures IsSymbol(Symbol(i)) && Index(Symbol(i)) == i
  {
  }

  lemma SymbolOfIndex(c: char)
    requires IsSymbol(c)
    ensures Symbol(Index(c)) == c
  {
  }

  function Indexes(s: string): (d: seq<int>)
    ensures |d| == |s| && forall i :: 0 <= i < |s| ==> d[i] == Index(s[i])
  {
    seq(|s|, i requires 0 <= i < |s| => Index(s[i]))
  }

  predicate Symbols(s: string) {
    forall i :: 0 <= i < |s| ==> IsSymbol(s[i])
  }

  // --------------------------------------------------------------- the encoding

  /** The bits of the data, zero bits after them up to a whole symbol. */
  ghost predicate Encodes(data: seq<Byte>, s: string) {
    && Symbols(s) && |s| == (8 * |data| + 4) / 5
    && Number(5, Indexes(s)) == Number(8, data) * Pow2(5 * |s| - 8 * |data|)
  }

  lemma Extend(s: string, i: nat)
    requires Symbols(s) && i < 32
    ensures Symbols(s + [Symbol(i)]) && Number(5, Indexes(s + [Symbol(i)])) == Number(5, Indexes(s)) * 32 + i
  {
    Widths();
    IndexOfSymbol(i);
    var t := s + [Symbol(i)];
    assert Indexes(t)[..|s|] == Indexes(s);
  }

  /** One symbol leaves the accumulator: the bits read so far are the same. */
  lemma Emit(n: int, acc: nat, bits: nat)
    requires bits >= 5 && acc < Pow2(bits)
    ensures Quotient(acc, Pow2(bits - 5)) < 32
    ensures n * Pow2(bits) + acc ==
            (n * 32 + Quotient(acc, Pow2(bits - 5))) * Pow2(bits - 5) + Remainder(acc, Pow2(bits - 5))
  {
    Widths();
    Pow2Add(5, bits - 5);
    hide Pow2;
    var p := Pow2(bits - 5);
    QuotientLess(acc, p, 32);
    Divides(acc, p);
    hide Quotient, Remainder;
    MulShift(n, 32, p);
    MulAdd(n * 32, Quotient(acc, p), p);
  }

  lemma Shift(n: int, acc: nat, bits: nat, value: Byte)
    requires acc < Pow2(bits) && bits < 5
    ensures acc * 256 + value < Pow2(bits + 8) && acc * 256 + value < 4096
    ensures (n * Pow2(bits) + acc) * 256 + value == n * Pow2(bits + 8) + (acc * 256 + value)
  {
    Widths();
    Pow2Add(bits, 8);
    Pow2Add(bits, 4 - bits);
    assert Pow2(4) == 2 * Pow2(3);
    hide Pow2;
    MulMono(1, Pow2(4 - bits), Pow2(bits));
    MulShift(n, Pow2(bits), 256);
    MulAdd(n * Pow2(bits), acc, 256);
  }

  /** What the loop has read: whole symbols, then fewer than five bits. */
  ghost predicate Reading(data: seq<Byte>, k: nat, encoded: string, accumulator: nat, bits: nat)
    requires k <= |data|
  {
    && accumulator < Pow2(bits) && 5 * |encoded| + bits == 8 * k && Symbols(encoded)
    && Number(8, data[..k]) == Number(5, Indexes(encoded)) * Pow2(bits) + accumulator
  }

  lemma ReadByte(data: seq<Byte>, k: nat, encoded: string, accumulator: nat, bits: nat)
    requires k < |data| && bits < 5 && Reading(data, k, encoded, accumulator, bits)
    ensures Reading(data, k + 1, encoded, accumulator * 256 + data[k], bits + 8) && accumulator * 256 + data[k] < 4096
  {
    assert data[..k + 1][..k] == data[..k];
    Widths();
    Shift(Number(5, Indexes(encoded)), accumulator, bits, data[k]);
    hide Pow2;
  }

  lemma EmitSymbol(data: seq<Byte>, k: nat, encoded: string, accumulator: nat, bits: nat)
    requires k <= |data| && bits >= 5 && Reading(data, k, encoded, accumulator, bits)
    ensures Quotient(accumulator, Pow2(bits - 5)) < 32
    ensures Reading(data, k, encoded + [Symbol(Quotient(accumulator, Pow2(bits - 5)))],
                    Remainder(accumulator, Pow2(bits - 5)), bits - 5)
  {
    Emit(Number(5, Indexes(encoded)), accumulator, bits);
    Extend(encoded, Quotient(accumulator, Pow2(bits - 5)));
    hide Pow2, Symbol;
  }

  lemma PadSymbol(data: seq<Byte>, encoded: string, accumulator: nat, bits: nat)
    requires 0 < bits < 5 && Reading(data, |data|, encoded, accumulator, bits)
    ensures accumulator * Pow2(5 - bits) < 32
    ensures Encodes(data, encoded + [Symbol(accumulator * Pow2(5 - bits))])
  {
    Widths();
    Pow2Add(bits, 5 - bits);
    hide Pow2, Number, Symbol;
    assert data[..|data|] == data;
    var n := Number(5, Indexes(encoded));
    PadSum(n, accumulator, Pow2(bits), Pow2(5 - bits));
    Extend(encoded, accumulator * Pow2(5 - bits));
  }

  lemma PadSum(n: int, acc: nat, p: nat, q: nat)
    requires acc < p && p * q == 32
    ensures acc * q < 32 && (n * p + acc) * q == n * 32 + acc * q
  {
    MulMono(acc + 1, p, q);
    MulAdd(acc, 1, q);
    MulMono(0, acc, q);
    GroupSum(n, acc, p, q);
  }

  lemma NoPad(data: seq<Byte>, encoded: string, accumulator: nat)
    requires Reading(data, |data|, encoded, accumulator, 0)
    ensures Encodes(data, encoded)
  {
    assert data[..|data|] == data;
  }

  /** encodeBase32Lower; peak is the largest value the accumulator ever held. */
  method EncodeBase32Lower(data: seq<Byte>) returns (encoded: string, ghost peak: nat)
    ensures Encodes(data, encoded)
    ensures peak < 4096
  {
    encoded, peak := "", 0;
    var accumulator: nat, bits: nat := 0, 0;
    assert Reading(data, 0, encoded, accumulator, bits);
    hide Reading, Encodes, Pow2, Symbol, Quotient, Remainder;
    for k := 0 to |data|
      invariant bits < 5 && Reading(data, k, encoded, accumulator, bits) && peak < 4096
    {
      ReadByte(data, k, encoded, accumulator, bits);
      accumulator := accumulator * 256 + data[k];
      bits := bits + 8;
      peak := if accumulator > peak then accumulator else peak;
      while bits >= 5
        invariant Reading(data, k + 1, encoded, accumulator, bits)
      {
        var shift := bits - 5;
        EmitSymbol(data, k + 1, encoded, accumulator, bits);
        encoded := encoded + [Symbol(Quotient(accumulator, Pow2(shift)))];
        bits := shift;
        accumulator := Remainder(accumulator, Pow2(bits));
      }
    }
    if bits > 0 {
      PadSymbol(data, encoded, accumulator, bits);
      encoded := encoded + [Symbol(accumulator * Pow2(5 - bits))];
    } else {
      NoPad(data, encoded, accumulator);
    }
  }

  // ------------------------------------------------------------- one-to-one, onto

  lemma ByteDigits(data: seq<Byte>)
    ensures Digits(8, data)
  {
    Widths();
  }

  lemma SymbolDigits(s: string)
    requires Symbols(s)
    ensures Digits(5, Indexes(s))
  {
    Widths();
  }

  lemma IndexesInjective(s: string, t: string)
    requires Symbols(s) && Symbols(t) && Indexes(s) == Indexes(t)
    ensures s == t
  {
    forall i | 0 <= i < |s| ensures s[i] == t[i] {
      SymbolOfIndex(s[i]);
      SymbolOfIndex(t[i]);
      assert Indexes(s)[i] == Indexes(t)[i];
    }
  }

  /** The data has one encoding. */
  lemma EncodingUnique(data: seq<Byte>, s: string, t: string)
    requires Encodes(data, s) && Encodes(data, t)
    ensures s == t
  {
    SymbolDigits(s);
    SymbolDigits(t);
    NumberUnique(5, Indexes(s), Indexes(t));
    IndexesInjective(s, t);
  }

  lemma CancelPower(a: int, b: int, p: nat)
    requires p > 0 && a * p == b * p
    ensures a == b
  {
    Split(p, a, 0, b, 0);
  }

  /** Data of one length with one encoding is the same data. */
  lemma EncodingInjective(a: seq<Byte>, b: seq<Byte>, s: string)
    requires |a| == |b| && Encodes(a, s) && Encodes(b, s)
    ensures a == b
  {
    ByteDigits(a);
    ByteDigits(b);
    CancelPower(Number(8, a), Number(8, b), Pow2(5 * |s| - 8 * |a|));
    NumberUnique(8, a, b);
  }

  /** The suffixes ValidateRunID lets through: the last symbol carries three bits
      of data and two zero pad bits, as section 3.5 of RFC 4648 has it. */
  predicate Canonical(s: string) {
    |s| == 26 && Symbols(s) && Index(s[25]) % 4 == 0
  }

  lemma LastDigit(s: string)
    requires |s| == 26 && Symbols(s)
    ensures Number(5, Indexes(s)) % 4 == Index(s[25]) % 4
  {
    var front := Number(5, Indexes(s)[..25]);
    LastOfNumber(5, Indexes(s));
    Widths();
    hide *;
    assert Number(5, Indexes(s)) == front * 32 + Index(s[25]);
    ModFour(8 * front, Index(s[25]));
  }

  lemma LastOfNumber(w: nat, digits: seq<int>)
    requires digits != []
    ensures Number(w, digits) == Number(w, digits[..|digits| - 1]) * Pow2(w) + digits[|digits| - 1]
  {
    hide Pow2;
  }

  lemma ModFour(n: int, d: int)
    ensures (4 * n + d) % 4 == d % 4
  {
  }

  /** Encoding sixteen bytes gives exactly the accepted suffixes, each from one
      value: the pad bits are the only thing that can be wrong with a suffix. */
  lemma CanonicalIffEncoding(s: string)
    ensures Canonical(s) <==> exists data: seq<Byte> :: |data| == 16 && Encodes(data, s)
  {
    FourIsPow2();
    if data: seq<Byte> :| |data| == 16 && Encodes(data, s) {
      hide Pow2;
      LastDigit(s);
      assert Number(5, Indexes(s)) == Number(8, data) * 4;
    }
    if Canonical(s) {
      var data := Decoded(s);
    }
  }

  lemma Decoded(s: string) returns (data: seq<Byte>)
    requires Canonical(s)
    ensures |data| == 16 && Encodes(data, s)
  {
    CanonicalNumber(s);
    var v := Number(5, Indexes(s)) / 4;
    BitsOfWidths(16);
    hide *;
    DigitsOfNumber(8, 16, v);
    data := AsBytes(DigitsOf(8, 16, v));
    CanonicalEncodes(data, s);
  }

  /** The symbols of an accepted suffix are a number of 128 bits and two zero bits. */
  lemma CanonicalNumber(s: string)
    requires Canonical(s)
    ensures 0 <= Number(5, Indexes(s)) / 4 < Pow2(128) && Number(5, Indexes(s)) / 4 * 4 == Number(5, Indexes(s))
  {
    LastDigit(s);
    SymbolDigits(s);
    NumberBounds(5, Indexes(s));
    BitsOfWidths(26);
    Pow2Add(128, 2);
    FourIsPow2();
    hide Pow2, Number, Digits;
    QuarterFits(Number(5, Indexes(s)), Pow2(128));
  }

  lemma FourIsPow2()
    ensures Pow2(2) == 4
  {
    assert Pow2(2) == 2 * Pow2(1);
  }

  lemma QuarterFits(n: int, p: nat)
    requires 0 <= n < p * 4 && n % 4 == 0
    ensures 0 <= n / 4 < p && n / 4 * 4 == n
  {
  }

  lemma CanonicalEncodes(data: seq<Byte>, s: string)
    requires Canonical(s) && |data| == 16 && Number(5, Indexes(s)) == Number(8, data) * 4
    ensures Encodes(data, s)
  {
    FourIsPow2();
    hide Pow2, Number;
  }

  lemma AsBytes(digits: seq<int>) returns (data: seq<Byte>)
    requires Digits(8, digits)
    ensures |data| == |digits| && data == digits
  {
    Widths();
    data := [];
    for i := 0 to |digits|
      invariant |data| == i && forall k :: 0 <= k < i ==> data[k] == digits[k]
    {
      data := data + [digits[i]];
    }
  }

  // ------------------------------------------------------- section 6 of RFC 4648

  /** Symbols of a final quantum of one to four bytes. */
  function FinalSymbols(bytes: nat): nat
    requires 1 <= bytes <= 4
  {
    match bytes case 1 => 2 case 2 => 4 case 3 => 5 case 4 => 7
  }

  /** Groups of forty bits, five at a time; a final group is filled with zero
      bits up to a whole number of symbols, and its padding characters dropped. */
  ghost function Quanta(data: seq<Byte>): seq<int>
    decreases |data|
  {
    if data == [] then []
    else if |data| < 5 then
      DigitsOf(5, FinalSymbols(|data|), AsNat(Number(8, data)) * Pow2(5 * FinalSymbols(|data|) - 8 * |data|))
    else
      DigitsOf(5, 8, AsNat(Number(8, data[..5]))) + Quanta(data[5..])
  }

  ghost function AsNat(v: int): nat {
    if v < 0 then 0 else v
  }

  lemma FinalQuantum(data: seq<Byte>)
    requires 1 <= |data| <= 4
    ensures var m := FinalSymbols(|data|);
            && m == (8 * |data| + 4) / 5 && |Quanta(data)| == m && Digits(5, Quanta(data))
            && Number(5, Quanta(data)) == Number(8, data) * Pow2(5 * m - 8 * |data|)
  {
    hide *;
    QuantumFits(data);
    ShortQuantum(data);
    var m := FinalSymbols(|data|);
    DigitsOfNumber(5, m, AsNat(Number(8, data)) * Pow2(5 * m - 8 * |data|));
  }

  lemma ShortQuantum(data: seq<Byte>)
    requires 1 <= |data| <= 4
    ensures var m := FinalSymbols(|data|);
            5 * m >= 8 * |data| && Quanta(data) == DigitsOf(5, m, AsNat(Number(8, data)) * Pow2(5 * m - 8 * |data|))
  {
    hide Pow2, Number, DigitsOf;
  }

  lemma QuantumFits(data: seq<Byte>)
    requires 1 <= |data| <= 4
    ensures var m := FinalSymbols(|data|);
            && m == (8 * |data| + 4) / 5 && AsNat(Number(8, data)) == Number(8, data)
            && Number(8, data) * Pow2(5 * m - 8 * |data|) < Pow2(Bits(5, m))
  {
    var m := FinalSymbols(|data|);
    ByteDigits(data);
    NumberBounds(8, data);
    BitsOfWidths(|data|);
    BitsOfWidths(m);
    Pow2Add(8 * |data|, 5 * m - 8 * |data|);
    hide Pow2, Number;
    Positional(Number(8, data), 0, Pow2(8 * |data|), Pow2(5 * m - 8 * |data|));
  }

  lemma FullQuantum(data: seq<Byte>)
    requires |data| == 5
    ensures |DigitsOf(5, 8, AsNat(Number(8, data)))| == 8 && Digits(5, DigitsOf(5, 8, AsNat(Number(8, data))))
    ensures Number(5, DigitsOf(5, 8, AsNat(Number(8, data)))) == Number(8, data)
  {
    ByteDigits(data);
    NumberBounds(8, data);
    BitsOfWidths(5);
    BitsOfWidths(8);
    hide Pow2;
    DigitsOfNumber(5, 8, AsNat(Number(8, data)));
  }

  /** Group by group, the standard writes the same number in the same number of symbols. */
  lemma {:induction false} QuantaNumber(data: seq<Byte>)
    ensures |Quanta(data)| == (8 * |data| + 4) / 5 && Digits(5, Quanta(data))
    ensures Number(5, Quanta(data)) == Number(8, data) * Pow2(5 * |Quanta(data)| - 8 * |data|)
    decreases |data|
  {
    if data == [] {
    } else if |data| < 5 {
      FinalQuantum(data);
    } else {
      hide Quanta, Number, Digits, DigitsOf, Pow2;
      var group, rest := data[..5], data[5..];
      assert data == group + rest;
      QuantaNumber(rest);
      FullQuantum(group);
      QuantaSplit(data);
      var head, tail := DigitsOf(5, 8, AsNat(Number(8, group))), Quanta(rest);
      DigitsConcat(5, head, tail);
      var pad := 5 * |tail| - 8 * |rest|;
      GroupedNumber(group, rest, head, tail, pad);
      assert 5 * |head + tail| - 8 * |group + rest| == pad;
    }
  }

  lemma QuantaSplit(data: seq<Byte>)
    requires |data| >= 5
    ensures Quanta(data) == DigitsOf(5, 8, AsNat(Number(8, data[..5]))) + Quanta(data[5..])
  {
  }

  lemma DigitsConcat(w: nat, a: seq<int>, b: seq<int>)
    requires Digits(w, a) && Digits(w, b)
    ensures Digits(w, a + b)
  {
  }

  lemma GroupedNumber(group: seq<Byte>, rest: seq<Byte>, head: seq<int>, tail: seq<int>, pad: nat)
    requires |group| == 5 && |head| == 8 && Number(5, head) == Number(8, group)
    requires 5 * |tail| == 8 * |rest| + pad && Number(5, tail) == Number(8, rest) * Pow2(pad)
    ensures Number(5, head + tail) == Number(8, group + rest) * Pow2(pad)
  {
    hide *;
    BitsOfWidths(|tail|);
    BitsOfWidths(|rest|);
    Pow2Add(8 * |rest|, pad);
    NumberConcat(5, head, tail);
    NumberConcat(8, group, rest);
    calc {
      Number(5, head + tail);
      Number(5, head) * Pow2(5 * |tail|) + Number(5, tail);
      Number(8, group) * (Pow2(8 * |rest|) * Pow2(pad)) + Number(8, rest) * Pow2(pad);
      { GroupSum(Number(8, group), Number(8, rest), Pow2(8 * |rest|), Pow2(pad)); }
      (Number(8, group) * Pow2(8 * |rest|) + Number(8, rest)) * Pow2(pad);
      Number(8, group + rest) * Pow2(pad);
    }
  }

  lemma GroupSum(g: int, r: int, p: int, q: int)
    ensures (g * p + r) * q == g * (p * q) + r * q
  {
    MulShift(g, p, q);
    MulAdd(g * p, r, q);
  }

  /** What the loop writes is what the standard writes. */
  lemma AgreesWithStandard(data: seq<Byte>, s: string)
    requires Encodes(data, s)
    ensures Indexes(s) == Quanta(data)
  {
    QuantaNumber(data);
    SymbolDigits(s);
    NumberUnique(5, Indexes(s), Quanta(data));
  }

  // ------------------------------------------------------------- whole identities

  predicate Digit(c: char) {
    '0' <= c <= '9'
  }

  /** Eight digits, T, six digits, Z. */
  predicate Stamp(s: string) {
    && |s| == 16 && s[8] == 'T' && s[15] == 'Z'
    && forall i :: 0 <= i < 15 && i != 8 ==> Digit(s[i])
  }

  /** ValidateRunID: the pattern, a real time, and canonical pad bits. */
  predicate ValidRunID(realTime: string -> bool, id: string) {
    && |id| == 47 && id[..4] == "run-" && Stamp(id[4..20]) && id[20] == '-' && Symbols(id[21..])
    && realTime(id[4..20]) && Index(id[46]) % 4 == 0
  }

  method ValidateRunID(realTime: string -> bool, id: string) returns (ok: bool)
    ensures ok <==> ValidRunID(realTime, id)
  {
    if |id| != 47 || id[..4] != "run-" || !Stamp(id[4..20]) || id[20] != '-' {
      return false;
    }
    for i := 21 to 47
      invariant forall k :: 21 <= k < i ==> IsSymbol(id[k])
    {
      if !IsSymbol(id[i]) {
        assert id[21..][i - 21] == id[i];
        return false;
      }
    }
    assert Symbols(id[21..]);
    var last := Index(id[46]);
    ok := realTime(id[4..20]) && last >= 0 && last % 4 == 0;
  }

  datatype Instant = ZeroTime | At(stamp: string)
  datatype Entropy = NoReader | Reader(rest: seq<Byte>)

  /** What asking for a new identity gives: the identity, or which error. */
  datatype Minted = Minted(id: string) | Invalid | Unavailable

  /** NewRunID: the first sixteen bytes the reader still has, or an error. */
  method NewRunID(now: Instant, entropy: Entropy) returns (r: Minted)
    ensures r.Invalid? <==> now.ZeroTime? || entropy.NoReader?
    ensures r.Unavailable? <==> now.At? && entropy.Reader? && |entropy.rest| < 16
    ensures r.Minted? ==>
              exists suffix :: Encodes(entropy.rest[..16], suffix) && r.id == "run-" + now.stamp + "-" + suffix
  {
    if entropy.NoReader? || now.ZeroTime? {
      return Invalid;
    }
    if |entropy.rest| < 16 {
      return Unavailable;
    }
    var suffix, peak := EncodeBase32Lower(entropy.rest[..16]);
    r := Minted("run-" + now.stamp + "-" + suffix);
  }

  /** An identity is accepted exactly when it is the one made from its own time
      and some sixteen bytes. */
  lemma AcceptedIffMade(realTime: string -> bool, stamp: string, suffix: string)
    requires Stamp(stamp) && realTime(stamp)
    ensures ValidRunID(realTime, "run-" + stamp + "-" + suffix) <==>
            exists data: seq<Byte> :: |data| == 16 && Encodes(data, suffix)
  {
    hide Encodes, Index, IsSymbol;
    CanonicalIffEncoding(suffix);
    var id := "run-" + stamp + "-" + suffix;
    assert id[..4] == "run-" && id[4..20] == stamp && id[20] == '-' && id[21..] == suffix;
    if |suffix| == 26 {
      assert id[46] == suffix[25];
    }
    assert Symbols(suffix) ==> forall i :: 0 <= i < |suffix| ==> Index(suffix[i]) >= 0;
  }

  predicate Decimal(s: string, n: nat) {
    |s| == n && forall c :: c in s ==> c in "0123456789"
  }

  /** The accepted identities, one and all: a date, a time of day that is real on it,
      and the encoding of some sixteen bytes. */
  ghost predicate Identity(realTime: string -> bool, id: string, date: string, clock: string, data: seq<Byte>,
                           suffix: string) {
    && Decimal(date, 8) && Decimal(clock, 6) && realTime(date + "T" + clock + "Z")
    && |data| == 16 && Encodes(data, suffix) && id == "run-" + date + "T" + clock + "Z-" + suffix
  }

  lemma IdentityIff(realTime: string -> bool, id: string)
    ensures ValidRunID(realTime, id) <==>
            exists date, clock, data, suffix :: Identity(realTime, id, date, clock, data, suffix)
  {
    hide *;
    if ValidRunID(realTime, id) {
      var date, clock, suffix := Parts(realTime, id);
      var data: seq<Byte> :| |data| == 16 && Encodes(data, suffix);
      Named(realTime, id, date, clock, data, suffix);
    }
    if date, clock, data, suffix :| Identity(realTime, id, date, clock, data, suffix) {
      Accepted(realTime, id, date, clock, data, suffix);
    }
  }

  lemma Named(realTime: string -> bool, id: string, date: string, clock: string, data: seq<Byte>, suffix: string)
    requires Decimal(date, 8) && Decimal(clock, 6) && realTime(date + "T" + clock + "Z")
    requires |data| == 16 && Encodes(data, suffix) && id == "run-" + date + "T" + clock + "Z-" + suffix
    ensures Identity(realTime, id, date, clock, data, suffix)
  {
    hide Encodes, Decimal;
  }

  lemma Parts(realTime: string -> bool, id: string) returns (date: string, clock: string, suffix: string)
    requires ValidRunID(realTime, id)
    ensures Decimal(date, 8) && Decimal(clock, 6) && realTime(date + "T" + clock + "Z")
    ensures id == "run-" + date + "T" + clock + "Z-" + suffix
    ensures exists data: seq<Byte> :: |data| == 16 && Encodes(data, suffix)
  {
    hide Encodes, Index, IsSymbol, Decimal, Digit;
    var stamp := id[4..20];
    date, clock, suffix := stamp[..8], stamp[9..15], id[21..];
    StampSays(stamp);
    assert id == "run-" + stamp + "-" + suffix;
    AcceptedIffMade(realTime, stamp, suffix);
  }

  lemma Accepted(realTime: string -> bool, id: string, date: string, clock: string, data: seq<Byte>, suffix: string)
    requires Identity(realTime, id, date, clock, data, suffix)
    ensures ValidRunID(realTime, id)
  {
    hide Encodes, ValidRunID, Decimal, Stamp;
    var stamp := date + "T" + clock + "Z";
    StampMade(date, clock);
    assert id == "run-" + stamp + "-" + suffix;
    AcceptedIffMade(realTime, stamp, suffix);
  }

  lemma StampSays(stamp: string)
    requires Stamp(stamp)
    ensures Decimal(stamp[..8], 8) && Decimal(stamp[9..15], 6) && stamp == stamp[..8] + "T" + stamp[9..15] + "Z"
  {
    forall i | 0 <= i < 15 && i != 8 ensures stamp[i] in "0123456789" {
      DecimalDigit(stamp[i]);
    }
  }

  lemma StampMade(date: string, clock: string)
    requires Decimal(date, 8) && Decimal(clock, 6)
    ensures Stamp(date + "T" + clock + "Z")
  {
    var stamp := date + "T" + clock + "Z";
    forall i | 0 <= i < 15 && i != 8 ensures Digit(stamp[i]) {
      assert stamp[i] == if i < 8 then date[i] else clock[i - 9];
      DecimalDigit(stamp[i]);
    }
  }

  lemma DecimalDigit(c: char)
    ensures c in "0123456789" <==> Digit(c)
  {
    var s := "0123456789";
    if Digit(c) {
      assert s[c as int - '0' as int] == c;
    }
  }
}
