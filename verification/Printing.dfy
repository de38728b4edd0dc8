/** The strings a record prints: the serial, the id and the batch, and how to read them back. */
module Printing {
  import opened Seed

  datatype Radix = Decimal | LowerHex | UpperHex
  {
    function Times(n: nat): nat { if Decimal? then n * 10 else n * 16 }

    function Quotient(n: nat): nat { if Decimal? then n / 10 else n / 16 }

    function Remainder(n: nat): (d: nat)
      ensures d < 16
    {
      if Decimal? then n % 10 else n % 16
    }

    function Digit(d: nat): char
      requires d < 16
    {
      if UpperHex? then "0123456789ABCDEF"[d] else "0123456789abcdef"[d]
    }
  }

  /** The digits of n, most significant first. */
  function Digits(n: nat, r: Radix): (s: string)
    ensures |s| >= 1
  {
    if r.Quotient(n) == 0 then [r.Digit(r.Remainder(n))]
    else Digits(r.Quotient(n), r) + [r.Digit(r.Remainder(n))]
  }

  function Zeros(n: nat): string { seq(n, _ => '0') }

  /** Left-padded with zeros to at least the given width; longer numbers are printed whole. */
  function Padded(n: nat, r: Radix, width: nat): (p: string)
    ensures |p| >= width
  {
    var s := Digits(n, r);
    if |s| >= width then s else Zeros(width - |s|) + s
  }

  function DigitValue(c: char): nat
  {
    if '0' <= c <= '9' then (c - '0') as nat
    else if 'a' <= c <= 'f' then (c - 'a') as nat + 10
    else if 'A' <= c <= 'F' then (c - 'A') as nat + 10
    else 0
  }

  /** The number a string of digits denotes. */
  function Value(s: string, r: Radix): nat
  {
    if s == [] then 0 else r.Times(Value(s[..|s| - 1], r)) + DigitValue(s[|s| - 1])
  }

  lemma DigitReadBack(d: nat, r: Radix)
    requires d < 16
    ensures DigitValue(r.Digit(d)) == d
  {
  }

  lemma QuotientRemainder(n: nat, r: Radix)
    ensures r.Times(r.Quotient(n)) + r.Remainder(n) == n
  {
  }

  lemma ValueSnoc(s: string, c: char, r: Radix)
    ensures Value(s + [c], r) == r.Times(Value(s, r)) + DigitValue(c)
  {
  }

  lemma {:induction false} ValueOfDigits(n: nat, r: Radix)
    ensures Value(Digits(n, r), r) == n
  {
    var d := r.Digit(r.Remainder(n));
    DigitReadBack(r.Remainder(n), r);
    QuotientRemainder(n, r);
    if r.Quotient(n) == 0 {
      ValueSnoc([], d, r);
      assert [] + [d] == [d];
    } else {
      ValueOfDigits(r.Quotient(n), r);
      ValueSnoc(Digits(r.Quotient(n), r), d, r);
    }
  }

  lemma {:induction false} ZerosDoNotCount(k: nat, s: string, r: Radix)
    ensures Value(Zeros(k) + s, r) == Value(s, r)
  {
    if s == [] {
      if k > 0 {
        ZerosDoNotCount(k - 1, [], r);
        ValueSnoc(Zeros(k - 1), '0', r);
        assert Zeros(k) + [] == Zeros(k - 1) + ['0'] && Zeros(k - 1) + [] == Zeros(k - 1);
      } else {
        assert Zeros(0) + s == [];
      }
    } else {
      var n := |s| - 1;
      assert (Zeros(k) + s)[..k + n] == Zeros(k) + s[..n];
      ZerosDoNotCount(k, s[..n], r);
    }
  }

  lemma ValueOfPadded(n: nat, r: Radix, width: nat)
    ensures Value(Padded(n, r, width), r) == n
  {
    var s := Digits(n, r);
    ValueOfDigits(n, r);
    if |s| < width {
      ZerosDoNotCount(width - |s|, s, r);
    }
  }

  function Pow(r: Radix, k: nat): nat { if k == 0 then 1 else r.Times(Pow(r, k - 1)) }

  /** A number below the k-th power of the radix needs at most k digits. */
  lemma {:induction false} DigitCount(n: nat, r: Radix, k: nat)
    requires 1 <= k && n < Pow(r, k)
    ensures |Digits(n, r)| <= k
  {
    if r.Quotient(n) != 0 {
      assert Pow(r, k) == r.Times(Pow(r, k - 1));
      if k > 1 {
        DigitCount(r.Quotient(n), r, k - 1);
      }
    }
  }

  lemma PaddedWidth(n: nat, r: Radix, width: nat)
    requires 1 <= width && n < Pow(r, width)
    ensures |Padded(n, r, width)| == width
  {
    DigitCount(n, r, width);
  }

  lemma Powers()
    ensures Pow(UpperHex, 4) == 65536 && Pow(LowerHex, 8) == TWO32 && Pow(Decimal, 3) == 1000
  {
    assert Pow(LowerHex, 4) == 65536;
  }

  // ---- what a record prints ----------------------------------------------------------------

  /** MP-%07d-%04X over the position and the low 16 bits of the seed. */
  function Serial(position: nat, seed: Word): string
  {
    "MP-" + Padded(position, Decimal, 7) + "-" + Padded(seed % 65536, UpperHex, 4)
  }

  /** %08x-%d over the seed and the position. */
  function Id(position: nat, seed: Word): string
  {
    Padded(seed, LowerHex, 8) + "-" + Digits(position, Decimal)
  }

  /** %03d-%c over the position modulo 1000 and a letter. */
  function Batch(position: nat, seed: Word): string
  {
    Padded(position % 1000, Decimal, 3) + "-" + ['A' + (seed % 26) as char]
  }

  /** Position and low seed bits, read back from a serial. */
  function ReadSerial(s: string): (nat, nat)
    requires |s| >= 8
  {
    (Value(s[3..|s| - 5], Decimal), Value(s[|s| - 4..], UpperHex))
  }

  /** Seed and position, read back from an id. */
  function ReadId(s: string): (nat, nat)
    requires |s| >= 9
  {
    (Value(s[..8], LowerHex), Value(s[9..], Decimal))
  }

  /** The serial can be read back at every position, beyond seven digits too. */
  lemma SerialRoundTrip(position: nat, seed: Word)
    ensures |Serial(position, seed)| >= 15
    ensures ReadSerial(Serial(position, seed)) == (position, seed % 65536)
  {
    hide Padded, Value, Pow;
    var p, h := Padded(position, Decimal, 7), Padded(seed % 65536, UpperHex, 4);
    Powers();
    PaddedWidth(seed % 65536, UpperHex, 4);
    ValueOfPadded(position, Decimal, 7);
    ValueOfPadded(seed % 65536, UpperHex, 4);
    var s := Serial(position, seed);
    assert s == "MP-" + p + "-" + h;
    assert s[3..|s| - 5] == p;
    assert s[|s| - 4..] == h;
  }

  /** The id can be read back at every position. */
  lemma IdRoundTrip(position: nat, seed: Word)
    ensures |Id(position, seed)| >= 10
    ensures ReadId(Id(position, seed)) == (seed, position)
  {
    hide Padded, Digits, Value, Pow;
    var h, p := Padded(seed, LowerHex, 8), Digits(position, Decimal);
    Powers();
    PaddedWidth(seed, LowerHex, 8);
    ValueOfPadded(seed, LowerHex, 8);
    ValueOfDigits(position, Decimal);
    var s := Id(position, seed);
    assert s == h + "-" + p;
    assert s[..8] == h;
    assert s[9..] == p;
  }

  /** Two positions never share a serial or an id, whatever their seeds. */
  lemma PositionsNeverCollide(p: nat, a: Word, q: nat, b: Word)
    requires p != q
    ensures Serial(p, a) != Serial(q, b) && Id(p, a) != Id(q, b)
  {
    SerialRoundTrip(p, a);
    SerialRoundTrip(q, b);
    IdRoundTrip(p, a);
    IdRoundTrip(q, b);
  }

  /** A batch is five characters: three digits, a dash and the letter that many places after A. */
  lemma BatchShape(position: nat, seed: Word)
    ensures var s := Batch(position, seed);
      |s| == 5 && s[3] == '-' && 'A' <= s[4] <= 'Z' && (s[4] - 'A') as int == seed % 26 && Value(s[..3], Decimal) == position % 1000
  {
    Powers();
    PaddedWidth(position % 1000, Decimal, 3);
    ValueOfPadded(position % 1000, Decimal, 3);
    var p := Padded(position % 1000, Decimal, 3);
    assert Batch(position, seed) == p + ("-" + ['A' + (seed % 26) as char]);
    assert Batch(position, seed)[..3] == p;
  }

  // ---- the characters themselves -------------------------------------------------------------

  /** Digits as the radix prints them. */
  predicate Printed(c: char, r: Radix)
  {
    || '0' <= c <= '9'
    || (r.LowerHex? && 'a' <= c <= 'f')
    || (r.UpperHex? && 'A' <= c <= 'F')
  }

  lemma {:induction false} DigitsPrinted(n: nat, r: Radix)
    ensures forall i :: 0 <= i < |Digits(n, r)| ==> Printed(Digits(n, r)[i], r)
  {
    if r.Quotient(n) != 0 {
      DigitsPrinted(r.Quotient(n), r);
    }
  }

  lemma PaddedPrinted(n: nat, r: Radix, width: nat)
    ensures forall i :: 0 <= i < |Padded(n, r, width)| ==> Printed(Padded(n, r, width)[i], r)
  {
    hide Digits;
    DigitsPrinted(n, r);
  }

  lemma DecimalPower()
    ensures Pow(Decimal, 7) == 10000000
  {
    assert Pow(Decimal, 4) == 10000;
  }

  /**
   * A serial reads MP, a dash, at least seven decimal digits (exactly seven below ten million), a dash, and
   * four digits of upper-case hexadecimal.
   */
  lemma SerialShape(position: nat, seed: Word)
    ensures var s := Serial(position, seed);
      && |s| >= 15 && (position < 10000000 ==> |s| == 15)
      && s[..3] == "MP-" && s[|s| - 5] == '-'
      && (forall i :: 3 <= i < |s| - 5 ==> Printed(s[i], Decimal))
      && (forall i :: |s| - 4 <= i < |s| ==> Printed(s[i], UpperHex))
  {
    hide Padded, Pow, Printed;
    var p, h := Padded(position, Decimal, 7), Padded(seed % 65536, UpperHex, 4);
    Powers();
    DecimalPower();
    PaddedWidth(seed % 65536, UpperHex, 4);
    if position < 10000000 {
      PaddedWidth(position, Decimal, 7);
    }
    PaddedPrinted(position, Decimal, 7);
    PaddedPrinted(seed % 65536, UpperHex, 4);
    var s := Serial(position, seed);
    assert s == "MP-" + p + "-" + h;
    forall i | 3 <= i < |s| - 5
      ensures Printed(s[i], Decimal)
    {
      assert s[i] == p[i - 3];
    }
    forall i | |s| - 4 <= i < |s|
      ensures Printed(s[i], UpperHex)
    {
      assert s[i] == h[i - |s| + 4];
    }
  }

  /** An id reads eight digits of lower-case hexadecimal, a dash, and decimal digits. */
  lemma IdShape(position: nat, seed: Word)
    ensures var s := Id(position, seed);
      && |s| >= 10 && s[8] == '-'
      && (forall i :: 0 <= i < 8 ==> Printed(s[i], LowerHex))
      && (forall i :: 9 <= i < |s| ==> Printed(s[i], Decimal))
  {
    hide Padded, Digits, Pow, Printed;
    var h, p := Padded(seed, LowerHex, 8), Digits(position, Decimal);
    Powers();
    PaddedWidth(seed, LowerHex, 8);
    PaddedPrinted(seed, LowerHex, 8);
    DigitsPrinted(position, Decimal);
    var s := Id(position, seed);
    assert s == h + "-" + p;
    forall i | 9 <= i < |s|
      ensures Printed(s[i], Decimal)
    {
      assert s[i] == p[i - 9];
    }
  }
}
