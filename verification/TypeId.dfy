/**
 The TypeID codec: `<prefix>_<26 characters>`, the 128 bits of a uuid regrouped from
 bytes into base-32 digits by a bit accumulator, and back.

 Strings are sequences of bytes here, as `str::len` and `str::bytes` have them.
 */
module TypeId {
  import opened Wrappers
  import opened Seqs
  import Arithmetic

  type Byte = n: nat | n < 256

  const TWO_32 := 0x1_0000_0000
  const ALPHABET := "0123456789abcdefghjkmnpqrstvwxyz"

  // ---------------------------------------------------------------- specification

  /** Big-endian value of a byte string. */
  function Value256(bytes: seq<Byte>): nat {
    if bytes == [] then 0 else Value256(bytes[..|bytes| - 1]) * 256 + bytes[|bytes| - 1]
  }

  /** The `n` low base-32 digits of `v`, most significant first. */
  function Encode(v: nat, n: nat): (s: string)
    ensures |s| == n
  {
    if n == 0 then [] else Encode(v / 32, n - 1) + [Symbol(v % 32)]
  }

  predicate IsUuid(bytes: seq<Byte>) {
    |bytes| == 16
  }

  /** The canonical text of a uuid. */
  function TypeIdOf(prefix: string, bytes: seq<Byte>): string {
    prefix + "_" + Encode(Value256(bytes), 26)
  }

  // ---------------------------------------------------------------- alphabet

  lemma AlphabetClimbs()
    ensures |ALPHABET| == 32 && forall i | 0 <= i < 31 :: ALPHABET[i] < ALPHABET[i + 1]
  {
  }

  lemma {:induction false} Climbs(i: nat, j: nat)
    requires i < j < 32
    ensures |ALPHABET| == 32 && ALPHABET[i] < ALPHABET[j]
    decreases j
  {
    AlphabetClimbs();
    if i + 1 < j {
      Climbs(i, j - 1);
      assert ALPHABET[j - 1] < ALPHABET[j - 1 + 1];
    }
  }

  lemma AlphabetIsOrdered()
    ensures |ALPHABET| == 32 && Distinct(ALPHABET)
    ensures forall i, j | 0 <= i < j < 32 :: ALPHABET[i] < ALPHABET[j]
  {
    AlphabetClimbs();
    forall i, j | 0 <= i < j < 32 ensures ALPHABET[i] < ALPHABET[j] {
      Climbs(i, j);
    }
  }

  function Symbol(d: nat): char
    requires d < 32
  {
    ALPHABET[d]
  }

  /** Crockford's base 32 in lower case: the digits, then the letters without i, l, o and u. */
  lemma SymbolIsCrockfords(d: nat)
    requires d < 32
    ensures Symbol(d) as int ==
              if d < 10 then '0' as int + d
              else 'a' as int + d - 10
                   + (if d >= 18 then 1 else 0) + (if d >= 20 then 1 else 0) + (if d >= 22 then 1 else 0) + (if d >= 27 then 1 else 0)
  {
  }

  predicate IsSymbol(c: char) {
    c in ALPHABET
  }

  /** `decode_char`: the position in the alphabet. */
  function DecodeChar(c: char): (r: Option<nat>)
    ensures r.Some? <==> IsSymbol(c)
    ensures r.Some? ==> r.value < 32 && Symbol(r.value) == c
  {
    if c in ALPHABET then Some(IndexOf(ALPHABET, c)) else None
  }

  lemma SymbolDecodes(d: nat)
    requires d < 32
    ensures IsSymbol(Symbol(d)) && DecodeChar(Symbol(d)) == Some(d)
  {
    AlphabetIsOrdered();
    IndexIsUnique(ALPHABET, d);
  }

  /** The alphabet is in character order, so digits compare as characters do. */
  lemma SymbolOrder(i: nat, j: nat)
    requires i < 32 && j < 32
    ensures Symbol(i) < Symbol(j) <==> i < j
    ensures Symbol(i) == Symbol(j) <==> i == j
  {
    AlphabetIsOrdered();
  }

  predicate Decodable(s: string) {
    forall c | c in s :: IsSymbol(c)
  }

  /** The value of a digit string. */
  function Value32(s: string): nat
    requires Decodable(s)
  {
    if s == [] then 0
    else
      assert forall c | c in s[..|s| - 1] :: c in s;
      Value32(s[..|s| - 1]) * 32 + DecodeChar(s[|s| - 1]).value
  }

  // ---------------------------------------------------------------- powers of two

  function Pow2(n: nat): (p: nat)
    ensures 0 < p
  {
    if n == 0 then 1 else 2 * Pow2(n - 1)
  }

  lemma {:induction false} Pow2Adds(m: nat, n: nat)
    ensures Pow2(m + n) == Pow2(m) * Pow2(n)
    decreases n
  {
    if n > 0 {
      Pow2Adds(m, n - 1);
      assert Pow2(m) * (2 * Pow2(n - 1)) == 2 * (Pow2(m) * Pow2(n - 1));
    }
  }

  lemma SmallPowers()
    ensures Pow2(0) == 1 && Pow2(1) == 2 && Pow2(2) == 4 && Pow2(3) == 8 && Pow2(4) == 16 && Pow2(5) == 32
    ensures Pow2(6) == 64 && Pow2(7) == 128 && Pow2(8) == 256
  {
  }

  lemma {:induction false} ValueBound256(bytes: seq<Byte>)
    ensures Value256(bytes) < Pow2(8 * |bytes|)
  {
    if bytes != [] {
      var init := bytes[..|bytes| - 1];
      ValueBound256(init);
      Pow2Adds(8 * |init|, 8);
      SmallPowers();
    }
  }

  // ---------------------------------------------------------------- digits and values

  lemma NextDigit(hi: nat, d: nat, n: nat)
    requires d < 32
    ensures Encode(hi * 32 + d, n + 1) == Encode(hi, n) + [Symbol(d)]
  {
    hide Symbol;
    assert (hi * 32 + d) / 32 == hi && (hi * 32 + d) % 32 == d;
  }

  lemma PrefixDecodes(s: string, n: nat)
    requires Decodable(s) && n < |s|
    ensures Decodable(s[..n]) && IsSymbol(s[n])
  {
  }

  lemma SplitLast(s: string)
    requires s != []
    ensures s == s[..|s| - 1] + [s[|s| - 1]]
  {
  }

  lemma ValueOfLast(s: string)
    requires Decodable(s) && s != []
    ensures Decodable(s[..|s| - 1]) && IsSymbol(s[|s| - 1])
    ensures Value32(s) == Value32(s[..|s| - 1]) * 32 + DecodeChar(s[|s| - 1]).value
  {
    hide DecodeChar, IsSymbol, Decodable;
    PrefixDecodes(s, |s| - 1);
  }

  lemma LastDigit(s: string)
    requires Decodable(s) && s != []
    ensures
      var n := |s| - 1;
      && Decodable(s[..n]) && IsSymbol(s[n]) && s == s[..n] + [s[n]]
      && Value32(s) == Value32(s[..n]) * 32 + DecodeChar(s[n]).value
  {
    hide DecodeChar, IsSymbol, Decodable, Value32;
    ValueOfLast(s);
    SplitLast(s);
  }

  lemma {:induction false} EncodeDecodes(v: nat, n: nat)
    requires v < Pow2(5 * n)
    ensures Decodable(Encode(v, n)) && Value32(Encode(v, n)) == v
  {
    hide Symbol, IsSymbol, DecodeChar, Value32;
    if n > 0 {
      Pow2Adds(5 * (n - 1), 5);
      SmallPowers();
      EncodeDecodes(v / 32, n - 1);
      var s := Encode(v, n);
      assert s[..n - 1] == Encode(v / 32, n - 1) && s[n - 1] == Symbol(v % 32);
      SymbolDecodes(v % 32);
      LastDigit(s);
    } else {
      NoDigits();
    }
  }

  lemma {:induction false} DecodeEncodes(s: string)
    requires Decodable(s)
    ensures Value32(s) < Pow2(5 * |s|) && Encode(Value32(s), |s|) == s
  {
    hide DecodeChar, Encode, Value32, Decodable, IsSymbol, Symbol;
    if s != [] {
      var n := |s| - 1;
      LastDigit(s);
      DecodeEncodes(s[..n]);
      Pow2Adds(5 * n, 5);
      SmallPowers();
      NextDigit(Value32(s[..n]), DecodeChar(s[n]).value, n);
    } else {
      NoDigits();
    }
  }

  lemma NoDigits()
    ensures Decodable("") && Value32("") == 0 && Encode(0, 0) == "" && Pow2(0) == 1
  {
  }

  /** Equal texts, equal uuids: the value determines the bytes. */
  lemma {:induction false} ValueIsInjective(a: seq<Byte>, b: seq<Byte>)
    requires |a| == |b| && Value256(a) == Value256(b)
    ensures a == b
  {
    if a != [] {
      ValueIsInjective(a[..|a| - 1], b[..|b| - 1]);
      assert a == a[..|a| - 1] + [a[|a| - 1]] && b == b[..|b| - 1] + [b[|b| - 1]];
    }
  }

  lemma UuidFits(bytes: seq<Byte>)
    requires IsUuid(bytes)
    ensures Value256(bytes) < Pow2(128) && Pow2(128) < Pow2(130)
  {
    ValueBound256(bytes);
    Pow2Adds(128, 2);
    SmallPowers();
  }

  // ---------------------------------------------------------------- regrouping

  /** The value held by the output so far and the `bits` pending bits of the accumulator. */
  function Joined(hi: nat, acc: nat, bits: nat): nat {
    hi * Pow2(bits) + acc
  }

  /** `acc >> bits`. */
  function ShiftRight(acc: nat, bits: nat): nat {
    Arithmetic.QuotientIsNatural(acc, Pow2(bits));
    acc / Pow2(bits)
  }

  /** `acc & ((1 << bits) - 1)`. */
  function LowBits(acc: nat, bits: nat): nat {
    acc % Pow2(bits)
  }

  /** Five bits move from the accumulator to the output: nothing is lost. */
  lemma TakeDigit(hi: nat, acc: nat, bits: nat)
    requires 5 <= bits <= 12 && acc < Pow2(bits)
    ensures
      var d, r := ShiftRight(acc, bits - 5), LowBits(acc, bits - 5);
      d < 32 && r < Pow2(bits - 5) && Joined(hi * 32 + d, r, bits - 5) == Joined(hi, acc, bits)
  {
    Pow2Adds(bits - 5, 5);
    SmallPowers();
    Regroup(hi, acc, 32, Pow2(bits - 5));
  }

  /** Eight bits move from the accumulator to the output. */
  lemma TakeByte(hi: nat, acc: nat, bits: nat)
    requires 8 <= bits <= 12 && acc < Pow2(bits)
    ensures
      var d, r := ShiftRight(acc, bits - 8), LowBits(acc, bits - 8);
      d < 256 && r < Pow2(bits - 8) && Joined(hi * 256 + d, r, bits - 8) == Joined(hi, acc, bits)
  {
    Pow2Adds(bits - 8, 8);
    SmallPowers();
    Regroup(hi, acc, 256, Pow2(bits - 8));
  }

  lemma Regroup(hi: nat, acc: nat, base: nat, p: nat)
    requires 0 < p && acc < p * base
    ensures acc / p < base && acc % p < p
    ensures hi * (p * base) + acc == (hi * base + acc / p) * p + acc % p
  {
  }

  /** New low bits enter the accumulator. */
  lemma Enter(hi: nat, acc: nat, bits: nat, extra: nat, x: nat)
    requires acc < Pow2(bits) && x < Pow2(extra)
    ensures Joined(hi, acc * Pow2(extra) + x, bits + extra) == Joined(hi, acc, bits) * Pow2(extra) + x
    ensures acc * Pow2(extra) + x < Pow2(bits + extra)
  {
    Pow2Adds(bits, extra);
    EnterProduct(hi, acc, Pow2(bits), Pow2(extra), x);
  }

  /** A byte enters a nearly empty accumulator: still far below 2^32. */
  lemma EnterByte(hi: nat, acc: nat, bits: nat, b: Byte)
    requires acc < Pow2(bits) && bits < 5
    ensures Joined(hi, acc * 256 + b, bits + 8) == Joined(hi, acc, bits) * 256 + b
    ensures acc * 256 + b < Pow2(bits + 8) && acc * 256 + b < TWO_32
  {
    SmallPowers();
    Enter(hi, acc, bits, 8, b);
  }

  lemma EnterProduct(hi: nat, acc: nat, p: nat, q: nat, x: nat)
    requires acc < p && x < q
    ensures (hi * p + acc) * q + x == hi * (p * q) + (acc * q + x)
    ensures acc * q + x < p * q
  {
    Arithmetic.Distributes(hi * p, acc, q);
    Arithmetic.Associates(hi, p, q);
    Arithmetic.Grows(acc + 1, p, q);
    Arithmetic.Distributes(acc, 1, q);
  }

  // ---------------------------------------------------------------- format

  lemma NextByte(bytes: seq<Byte>, i: nat)
    requires i < |bytes|
    ensures Value256(bytes[..i + 1]) == Value256(bytes[..i]) * 256 + bytes[i]
  {
    assert bytes[..i + 1][..i] == bytes[..i];
  }

  /** `typeid`. The accumulator is a `u32`: the reductions modulo 2^32 are its wrap-around, and never fire. */
  method Format(prefix: string, bytes: seq<Byte>) returns (out: string)
    requires IsUuid(bytes)
    ensures out == TypeIdOf(prefix, bytes)
  {
    hide Encode, Value256, Pow2, Symbol, Joined, ShiftRight, LowBits;
    out := prefix + ['_'];
    var acc: nat, bits: nat := 0, 2;
    ghost var hi: nat, n: nat := 0, 0;
    NothingWritten(bytes);
    for i := 0 to 16
      invariant 5 * n + bits == 8 * i + 2 && bits < 5
      invariant acc < Pow2(bits) && Value256(bytes[..i]) == Joined(hi, acc, bits)
      invariant out == prefix + ['_'] + Encode(hi, n)
    {
      var b := bytes[i];
      NextByte(bytes, i);
      EnterByte(hi, acc, bits, b);
      acc := (acc * 256 + b) % TWO_32;
      bits := bits + 8;
      while bits >= 5
        invariant 5 * n + bits == 8 * i + 10 && bits <= 12
        invariant acc < Pow2(bits) && Value256(bytes[..i + 1]) == Joined(hi, acc, bits)
        invariant out == prefix + ['_'] + Encode(hi, n)
      {
        TakeDigit(hi, acc, bits);
        bits := bits - 5;
        var d := ShiftRight(acc, bits) % 32;
        NextDigit(hi, d, n);
        out := out + [Symbol(d)];
        acc := LowBits(acc, bits);
        hi, n := hi * 32 + d, n + 1;
      }
    }
    EverythingWritten(bytes, hi, acc);
    assert prefix + ['_'] == prefix + "_";
  }

  lemma NothingWritten(bytes: seq<Byte>)
    ensures Value256(bytes[..0]) == Joined(0, 0, 2) && 0 < Pow2(2) && Encode(0, 0) == ""
  {
  }

  lemma EverythingWritten(bytes: seq<Byte>, hi: nat, acc: nat)
    requires |bytes| == 16 && acc < Pow2(0) && Value256(bytes[..16]) == Joined(hi, acc, 0)
    ensures Value256(bytes) == hi
  {
    assert bytes[..16] == bytes;
  }

  // ---------------------------------------------------------------- parse, as a function

  /** The `n` low bytes of `v`. */
  function BytesOf(v: nat, n: nat): (b: seq<Byte>)
    ensures |b| == n
  {
    if n == 0 then [] else BytesOf(v / 256, n - 1) + [v % 256]
  }

  function Suffix(prefix: string, s: string): string
    requires |prefix| + 1 <= |s|
  {
    s[|prefix| + 1..]
  }

  /** What the strict parse demands of its input. */
  predicate WellShaped(prefix: string, s: string) {
    && |s| == |prefix| + 27 && s[..|prefix|] == prefix && s[|prefix|] == '_'
    && Decodable(Suffix(prefix, s)) && DecodeChar(Suffix(prefix, s)[0]) != None && DecodeChar(Suffix(prefix, s)[0]).value <= 7
  }

  function Parsed(prefix: string, s: string): Option<seq<Byte>> {
    if WellShaped(prefix, s) then Some(BytesOf(Value32(Suffix(prefix, s)), 16)) else None
  }

  lemma {:induction false} BytesHaveTheValue(v: nat, n: nat)
    requires v < Pow2(8 * n)
    ensures Value256(BytesOf(v, n)) == v
  {
    if n > 0 {
      Pow2Adds(8 * (n - 1), 8);
      SmallPowers();
      BytesHaveTheValue(v / 256, n - 1);
      assert BytesOf(v, n)[..n - 1] == BytesOf(v / 256, n - 1);
    }
  }

  /** What a digit adds to the value when `n` digits follow it. */
  function Weighted(digit: nat, n: nat): nat {
    digit * Pow2(5 * n)
  }

  lemma NextWeight(digit: nat, n: nat)
    requires n > 0
    ensures Weighted(digit, n) == Weighted(digit, n - 1) * 32
  {
    Pow2Adds(5 * (n - 1), 5);
    SmallPowers();
    Arithmetic.Associates(digit, Pow2(5 * (n - 1)), 32);
  }

  lemma LastWeight(digit: nat)
    ensures Weighted(digit, 0) == digit
  {
  }

  /** A digit string from its front: the first digit weighs most. */
  lemma {:induction false} FirstDigitWeighs(s: string)
    requires Decodable(s) && s != []
    ensures Decodable(s[1..]) && IsSymbol(s[0])
    ensures Value32(s) == Weighted(DecodeChar(s[0]).value, |s| - 1) + Value32(s[1..])
    decreases |s|
  {
    hide DecodeChar, IsSymbol, Value32, Decodable, Weighted;
    TailDecodes(s);
    var n := |s| - 1;
    LastDigit(s);
    LastWeight(DecodeChar(s[0]).value);
    if n == 0 {
      assert s[..0] == "" && s[1..] == "";
      NoDigits();
    } else {
      var init := s[..n];
      FirstDigitWeighs(init);
      assert init[0] == s[0] && s[1..][..n - 1] == init[1..] && s[1..][n - 1] == s[n];
      LastDigit(s[1..]);
      NextWeight(DecodeChar(s[0]).value, n);
    }
  }

  lemma FirstDigit(s: string)
    requires Decodable(s) && s != []
    ensures Decodable(s[1..]) && IsSymbol(s[0])
    ensures Value32(s) == DecodeChar(s[0]).value * Pow2(5 * (|s| - 1)) + Value32(s[1..])
  {
    hide DecodeChar, IsSymbol, Value32, Decodable, Pow2;
    FirstDigitWeighs(s);
  }

  lemma TailDecodes(s: string)
    requires Decodable(s) && s != []
    ensures Decodable(s[1..]) && IsSymbol(s[0])
  {
  }

  /** 26 digits hold 130 bits: the uuid fits exactly when the first digit is at most 7. */
  lemma FitsIffFirstDigit(s: string)
    requires Decodable(s) && |s| == 26
    ensures IsSymbol(s[0])
    ensures Value32(s) < Pow2(128) <==> DecodeChar(s[0]).value <= 7
  {
    hide DecodeChar, IsSymbol, Value32, Decodable, Encode, Pow2;
    FirstDigit(s);
    DecodeEncodes(s[1..]);
    Pow2Adds(125, 3);
    SmallPowers();
    var d := DecodeChar(s[0]).value;
    if d <= 7 {
      Arithmetic.Grows(d + 1, 8, Pow2(125));
      Arithmetic.Distributes(d, 1, Pow2(125));
    } else {
      Arithmetic.Grows(8, d, Pow2(125));
    }
  }

  lemma CanonicalTextIsWellShaped(prefix: string, bytes: seq<Byte>)
    requires IsUuid(bytes)
    ensures WellShaped(prefix, TypeIdOf(prefix, bytes))
    ensures Suffix(prefix, TypeIdOf(prefix, bytes)) == Encode(Value256(bytes), 26)
  {
    hide DecodeChar, IsSymbol, Value32, Encode, Pow2, Value256, Decodable;
    var s := TypeIdOf(prefix, bytes);
    assert Suffix(prefix, s) == Encode(Value256(bytes), 26);
    UuidFits(bytes);
    EncodeDecodes(Value256(bytes), 26);
    FitsIffFirstDigit(Suffix(prefix, s));
  }

  /** Parse inverts format, for every 128-bit id. */
  lemma ParseInvertsFormat(prefix: string, bytes: seq<Byte>)
    requires IsUuid(bytes)
    ensures Parsed(prefix, TypeIdOf(prefix, bytes)) == Some(bytes)
  {
    hide DecodeChar, IsSymbol, Value32, Encode, Pow2, Value256, BytesOf, WellShaped, Decodable, Suffix, TypeIdOf;
    CanonicalTextIsWellShaped(prefix, bytes);
    UuidFits(bytes);
    var v := Value256(bytes);
    EncodeDecodes(v, 26);
    BytesHaveTheValue(v, 16);
    ValueIsInjective(bytes, BytesOf(v, 16));
    ShapeDecodes(prefix, TypeIdOf(prefix, bytes));
  }

  lemma ShapeDecodes(prefix: string, s: string)
    requires WellShaped(prefix, s)
    ensures |prefix| + 1 <= |s| && Decodable(Suffix(prefix, s)) && |Suffix(prefix, s)| == 26
    ensures Value32(Suffix(prefix, s)) < Pow2(128)
    ensures s == prefix + "_" + Suffix(prefix, s)
  {
    hide DecodeChar, IsSymbol, Value32, Pow2, Decodable;
    FitsIffFirstDigit(Suffix(prefix, s));
    assert s == s[..|prefix|] + [s[|prefix|]] + s[|prefix| + 1..];
  }

  /** And only canonical text is accepted: whatever parses is the format of its result. */
  lemma FormatInvertsParse(prefix: string, s: string)
    requires Parsed(prefix, s).Some?
    ensures IsUuid(Parsed(prefix, s).value) && s == TypeIdOf(prefix, Parsed(prefix, s).value)
  {
    hide DecodeChar, IsSymbol, Value32, Encode, Pow2, Value256, BytesOf, WellShaped, Decodable, Suffix;
    ShapeDecodes(prefix, s);
    BytesHaveTheValue(Value32(Suffix(prefix, s)), 16);
    DecodeEncodes(Suffix(prefix, s));
  }

  // ---------------------------------------------------------------- order

  /** String comparison, as the client compares ids. */
  predicate LexLess(s: string, t: string) {
    t != [] && (s == [] || s[0] < t[0] || (s[0] == t[0] && LexLess(s[1..], t[1..])))
  }

  lemma {:induction false} LexIgnoresPrefix(prefix: string, s: string, t: string)
    ensures LexLess(prefix + s, prefix + t) <==> LexLess(s, t)
  {
    if prefix == [] {
      assert prefix + s == s && prefix + t == t;
    } else {
      LexIgnoresPrefix(prefix[1..], s, t);
      assert (prefix + s)[1..] == prefix[1..] + s && (prefix + t)[1..] == prefix[1..] + t;
    }
  }

  /** Leading digits decide. */
  lemma Leads(d: nat, e: nat, x: nat, y: nat, p: nat)
    requires x < p && y < p
    ensures d < e ==> d * p + x < e * p + y
    ensures d == e ==> (d * p + x < e * p + y <==> x < y)
  {
    if d < e {
      Arithmetic.Grows(d + 1, e, p);
      Arithmetic.Distributes(d, 1, p);
    }
  }

  lemma {:induction false} LexIsNumeric(s: string, t: string)
    requires Decodable(s) && Decodable(t) && |s| == |t|
    ensures LexLess(s, t) <==> Value32(s) < Value32(t)
    decreases |s|
  {
    hide DecodeChar, IsSymbol, Value32, Decodable, Symbol, Pow2, Encode;
    if s == [] {
      NoDigits();
    } else {
      FirstDigit(s);
      FirstDigit(t);
      DecodeEncodes(s[1..]);
      DecodeEncodes(t[1..]);
      var d, e := DecodeChar(s[0]).value, DecodeChar(t[0]).value;
      SymbolOrder(d, e);
      SymbolOrder(e, d);
      Leads(d, e, Value32(s[1..]), Value32(t[1..]), Pow2(5 * (|s| - 1)));
      Leads(e, d, Value32(t[1..]), Value32(s[1..]), Pow2(5 * (|s| - 1)));
      LexIsNumeric(s[1..], t[1..]);
    }
  }

  /** Ids of one prefix compare as strings the way their uuids compare as numbers. */
  lemma StringOrderIsUuidOrder(prefix: string, a: seq<Byte>, b: seq<Byte>)
    requires IsUuid(a) && IsUuid(b)
    ensures LexLess(TypeIdOf(prefix, a), TypeIdOf(prefix, b)) <==> Value256(a) < Value256(b)
  {
    hide DecodeChar, IsSymbol, Value32, Decodable, Pow2, Encode, LexLess, Value256;
    UuidFits(a);
    UuidFits(b);
    EncodeDecodes(Value256(a), 26);
    EncodeDecodes(Value256(b), 26);
    LexIgnoresPrefix(prefix + "_", Encode(Value256(a), 26), Encode(Value256(b), 26));
    LexIsNumeric(Encode(Value256(a), 26), Encode(Value256(b), 26));
  }

  // ---------------------------------------------------------------- parse, as the loop it is

  lemma EnterDigit(hi: nat, acc: nat, bits: nat, d: nat)
    requires acc < Pow2(bits) && bits < 8 && d < 32
    ensures Joined(hi, acc * 32 + d, bits + 5) == Joined(hi, acc, bits) * 32 + d
    ensures acc * 32 + d < Pow2(bits + 5) && acc * 32 + d < TWO_32
  {
    SmallPowers();
    Enter(hi, acc, bits, 5, d);
    Pow2Adds(7, 5);
    PowersGrow(bits + 5, 12);
  }

  lemma {:induction false} PowersGrow(m: nat, n: nat)
    requires m <= n
    ensures Pow2(m) <= Pow2(n)
  {
    if m < n {
      PowersGrow(m, n - 1);
    }
  }

  lemma OneMoreDigit(s: string, k: nat)
    requires k < |s| && Decodable(s[..k]) && IsSymbol(s[k])
    ensures Decodable(s[..k + 1]) && Value32(s[..k + 1]) == Value32(s[..k]) * 32 + DecodeChar(s[k]).value
  {
    hide DecodeChar, IsSymbol, Value32;
    assert s[..k + 1] == s[..k] + [s[k]];
    LastDigit(s[..k + 1]);
    assert s[..k + 1][..k] == s[..k];
  }

  lemma FirstDigitIn(s: string)
    requires s != [] && IsSymbol(s[0])
    ensures Decodable(s[..1]) && Value32(s[..1]) == DecodeChar(s[0]).value
  {
  }

  /** `parse_typeid`. */
  method Parse(prefix: string, s: string) returns (r: Option<seq<Byte>>)
    ensures r == Parsed(prefix, s)
  {
    hide DecodeChar, IsSymbol, Value32, Decodable, Pow2, Joined, ShiftRight, LowBits, Value256, BytesOf, Symbol;
    if |s| < |prefix| || s[..|prefix|] != prefix {
      return None;
    }
    if |s| == |prefix| || s[|prefix|] != '_' {
      return None;
    }
    var suffix := s[|prefix| + 1..];
    if |suffix| != 26 {
      return None;
    }
    var first := DecodeChar(suffix[0]);
    if first.None? || first.value > 7 {
      return None;
    }
    var acc: nat, bits: nat := first.value, 3;
    var bytes := new Byte[16](_ => 0);
    var i := 0;
    FirstDigitIn(suffix);
    FirstByte(bytes[..0], acc);
    for k := 1 to 26
      invariant 8 * i + bits == 5 * k - 2 && bits < 8 && i <= 16
      invariant Decodable(suffix[..k]) && acc < Pow2(bits)
      invariant Value32(suffix[..k]) == Joined(Value256(bytes[..i]), acc, bits)
    {
      var v := DecodeChar(suffix[k]);
      if v.None? {
        NotDecodable(suffix, k);
        return None;
      }
      OneMoreDigit(suffix, k);
      EnterDigit(Value256(bytes[..i]), acc, bits, v.value);
      acc := (acc * 32 + v.value) % TWO_32;
      bits := bits + 5;
      if bits >= 8 {
        TakeByte(Value256(bytes[..i]), acc, bits);
        bits := bits - 8;
        bytes[i] := ShiftRight(acc, bits) % 256;
        acc := LowBits(acc, bits);
        NextByte(bytes[..], i);
        assert bytes[..][..i + 1] == bytes[..i + 1] && bytes[..][..i] == bytes[..i];
        i := i + 1;
      }
    }
    assert suffix[..26] == suffix && bytes[..16] == bytes[..];
    AllBytesWritten(suffix, bytes[..], acc);
    return Some(bytes[..]);
  }

  lemma FirstByte(none: seq<Byte>, acc: nat)
    requires none == [] && acc <= 7
    ensures acc < Pow2(3) && acc == Joined(Value256(none), acc, 3)
  {
  }

  lemma NotDecodable(s: string, k: nat)
    requires k < |s| && !IsSymbol(s[k])
    ensures !Decodable(s)
  {
  }

  lemma AllBytesWritten(suffix: string, bytes: seq<Byte>, acc: nat)
    requires Decodable(suffix) && |suffix| == 26 && IsUuid(bytes) && acc < Pow2(0)
    requires Value32(suffix) == Joined(Value256(bytes), acc, 0)
    ensures bytes == BytesOf(Value32(suffix), 16)
  {
    hide Decodable, Value32, Value256, BytesOf;
    ValueBound256(bytes);
    BytesHaveTheValue(Value32(suffix), 16);
    ValueIsInjective(bytes, BytesOf(Value32(suffix), 16));
  }
}
