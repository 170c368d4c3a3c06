/** Sino-Korean number reading, and a reader of such texts that inverts it. */
module Numerals {

  /** The syllables of the number words, one per character of the text. */
  datatype Syllable =
    | Yeong | Il | I | Sam | Sa | O | Yuk | Chil | Pal | Gu
    | Sip | Baek | Cheon | Man

  type Text = seq<Syllable>

  const DIGITS: Text := [Yeong, Il, I, Sam, Sa, O, Yuk, Chil, Pal, Gu]

  const MYRIAD: nat := 10000

  predicate IsDigit(d: nat) { d < 10 }

  function UnitText(pos: nat): Text
    requires pos < 4
  {
    if pos == 0 then [] else if pos == 1 then [Sip] else if pos == 2 then [Baek] else [Cheon]
  }

  function Power(pos: nat): nat
    requires pos < 4
  {
    if pos == 0 then 1 else if pos == 1 then 10 else if pos == 2 then 100 else 1000
  }

  /** The decimal digits, most significant first. */
  function Decimal(n: nat): (ds: seq<nat>)
    ensures ds != [] && forall i :: 0 <= i < |ds| ==> IsDigit(ds[i])
  {
    if n < 10 then [n] else Decimal(n / 10) + [n % 10]
  }

  /** One digit at its place: a silent zero, and no "one" before a unit. */
  function DigitText(d: nat, pos: nat): Text
    requires IsDigit(d) && pos < 4
  {
    if d == 0 then []
    else (if d == 1 && pos > 0 then [] else [DIGITS[d]]) + UnitText(pos)
  }

  function ChunkText(ds: seq<nat>): Text
    requires |ds| <= 4 && forall i :: 0 <= i < |ds| ==> IsDigit(ds[i])
  {
    if ds == [] then [] else DigitText(ds[0], |ds| - 1) + ChunkText(ds[1..])
  }

  function Sino(n: nat): Text {
    if n == 0 then [Yeong]
    else if n < MYRIAD then Below(n)
    else (if n / MYRIAD == 1 then [] else Sino(n / MYRIAD)) + [Man] + Below(n % MYRIAD)
  }

  function Below(n: nat): Text
    requires n < MYRIAD
  {
    ShortDecimal(n, 4);
    ChunkText(Decimal(n))
  }

  function Tens(k: nat): nat { if k == 0 then 1 else 10 * Tens(k - 1) }

  lemma {:induction false} ShortDecimal(n: nat, k: nat)
    requires k > 0 && n < Tens(k)
    ensures |Decimal(n)| <= k
  {
    if n >= 10 { ShortDecimal(n / 10, k - 1); }
  }

  // ----- reading ------------------------------------------------------------------

  function DigitOf(s: Syllable): nat {
    match s
    case Il => 1 case I => 2 case Sam => 3 case Sa => 4 case O => 5
    case Yuk => 6 case Chil => 7 case Pal => 8 case Gu => 9
    case _ => 0
  }

  function UnitOf(s: Syllable): nat {
    match s
    case Sip => 10 case Baek => 100 case Cheon => 1000
    case _ => 0
  }

  /** Reads digit and unit pairs; a bare unit counts once, a bare digit as itself. */
  function ReadChunk(t: Text): nat {
    if t == [] then 0
    else if UnitOf(t[0]) > 0 then UnitOf(t[0]) + ReadChunk(t[1..])
    else if |t| > 1 && UnitOf(t[1]) > 0 then DigitOf(t[0]) * UnitOf(t[1]) + ReadChunk(t[2..])
    else DigitOf(t[0]) + ReadChunk(t[1..])
  }

  /** The place of the last `Man`, or -1. */
  function LastMan(t: Text): (i: int)
    ensures -1 <= i < |t| && (i >= 0 ==> t[i] == Man)
    ensures forall k :: i < k < |t| ==> t[k] != Man
  {
    if t == [] then -1
    else if t[|t| - 1] == Man then |t| - 1
    else LastMan(t[..|t| - 1])
  }

  function Read(t: Text): nat {
    var i := LastMan(t);
    if i < 0 then ReadChunk(t)
    else (if i == 0 then 1 else Read(t[..i])) * MYRIAD + ReadChunk(t[i + 1..])
  }

  // ----- the round trip -----------------------------------------------------------

  function Value(ds: seq<nat>): nat
    requires |ds| <= 4
  {
    if ds == [] then 0 else ds[0] * Power(|ds| - 1) + Value(ds[1..])
  }

  lemma {:induction false} ValueOfAppended(ds: seq<nat>, d: nat)
    requires |ds| < 4
    ensures Value(ds + [d]) == 10 * Value(ds) + d
  {
    if ds == [] {
      assert Value([d]) == d;
    } else {
      assert (ds + [d])[1..] == ds[1..] + [d];
      ValueOfAppended(ds[1..], d);
      assert Power(|ds|) == 10 * Power(|ds| - 1);
      assert ds[0] * Power(|ds|) == 10 * (ds[0] * Power(|ds| - 1));
    }
  }

  lemma {:induction false} ValueOfDecimal(n: nat)
    requires |Decimal(n)| <= 4
    ensures Value(Decimal(n)) == n
  {
    if n >= 10 {
      ValueOfDecimal(n / 10);
      ValueOfAppended(Decimal(n / 10), n % 10);
    }
  }

  lemma DigitIsRead(d: nat, pos: nat, rest: Text)
    requires IsDigit(d) && pos < 4 && (pos == 0 ==> rest == [])
    ensures ReadChunk(DigitText(d, pos) + rest) == d * Power(pos) + ReadChunk(rest)
  {
    var t := DigitText(d, pos) + rest;
    if d == 0 {
      assert t == rest;
    } else if pos == 0 {
      assert t == [DIGITS[d]];
    } else if d == 1 {
      assert t[0] == UnitText(pos)[0] && t[1..] == rest;
    } else {
      assert t[0] == DIGITS[d] && t[1] == UnitText(pos)[0] && t[2..] == rest;
    }
  }

  lemma {:induction false} ChunkIsRead(ds: seq<nat>)
    requires |ds| <= 4 && forall i :: 0 <= i < |ds| ==> IsDigit(ds[i])
    ensures ReadChunk(ChunkText(ds)) == Value(ds)
  {
    if ds != [] {
      ChunkIsRead(ds[1..]);
      DigitIsRead(ds[0], |ds| - 1, ChunkText(ds[1..]));
      hide ReadChunk, DigitText, Power;
    }
  }

  lemma {:induction false} ChunkHasNoMan(ds: seq<nat>)
    requires |ds| <= 4 && forall i :: 0 <= i < |ds| ==> IsDigit(ds[i])
    ensures Man !in ChunkText(ds)
  {
    if ds != [] {
      ChunkHasNoMan(ds[1..]);
      DigitHasNoMan(ds[0], |ds| - 1);
      hide DigitText;
    }
  }

  lemma DigitHasNoMan(d: nat, pos: nat)
    requires IsDigit(d) && pos < 4
    ensures Man !in DigitText(d, pos)
  {}

  lemma BelowIsRead(n: nat)
    requires n < MYRIAD
    ensures ReadChunk(Below(n)) == n && Man !in Below(n)
  {
    ShortDecimal(n, 4);
    ValueOfDecimal(n);
    ChunkIsRead(Decimal(n));
    ChunkHasNoMan(Decimal(n));
  }

  lemma LastManIs(s: Text, t: Text)
    requires Man !in t
    ensures LastMan(s + [Man] + t) == |s|
  {
    var i, u := LastMan(s + [Man] + t), s + [Man] + t;
    assert u[|s|] == Man;
    forall k | |s| < k < |u| ensures u[k] != Man { assert u[k] == t[k - |s| - 1]; }
  }

  /** Reading undoes printing, for every number. */
  lemma {:induction false} ReadSino(n: nat)
    ensures Read(Sino(n)) == n
  {
    hide Read, Below;
    if n == 0 {
      ReadZero();
    } else if n < MYRIAD {
      ReadBelow(n);
    } else {
      var high, low := n / MYRIAD, n % MYRIAD;
      Halves(n);
      ReadSino(high);
      NotEmpty(high);
      ReadParts(if high == 1 then [] else Sino(high), low);
    }
  }

  lemma Halves(n: nat)
    requires n >= MYRIAD
    ensures 0 < n / MYRIAD < n && (n / MYRIAD) * MYRIAD + n % MYRIAD == n
  {}

  lemma ReadZero()
    ensures Read([Yeong]) == 0
  {}

  lemma ReadBelow(n: nat)
    requires n < MYRIAD
    ensures Read(Below(n)) == n
  {
    BelowIsRead(n);
    hide Below, ReadChunk;
  }

  lemma ReadParts(s: Text, low: nat)
    requires low < MYRIAD
    ensures Read(s + [Man] + Below(low)) == (if s == [] then 1 else Read(s)) * MYRIAD + low
  {
    BelowIsRead(low);
    LastManIs(s, Below(low));
    var t := s + [Man] + Below(low);
    hide LastMan, Below, ReadChunk;
    assert t[..|s|] == s && t[|s| + 1..] == Below(low);
  }

  lemma NotEmpty(n: nat)
    requires n > 0
    ensures Sino(n) != []
  {
    if n < MYRIAD { BelowIsRead(n); }
  }

  /** Different numbers are read differently. */
  lemma SinoIsInjective(m: nat, n: nat)
    requires Sino(m) == Sino(n)
    ensures m == n
  {
    ReadSino(m);
    ReadSino(n);
  }

  // ----- the program --------------------------------------------------------------

  method PrintSino(n: nat) returns (t: Text)
    ensures t == Sino(n)
  {
    if n == 0 { return [Yeong]; }
    var high: Text, m := [], n;
    if n >= MYRIAD {
      if n / MYRIAD != 1 { high := PrintSino(n / MYRIAD); }
      high := high + [Man];
      m := n % MYRIAD;
    }
    assert high + Below(m) == Sino(n);
    ShortDecimal(m, 4);
    hide Sino;
    var s := PrintChunk(Decimal(m));
    return high + s;
  }

  method PrintChunk(digits: seq<nat>) returns (s: Text)
    requires |digits| <= 4 && forall i :: 0 <= i < |digits| ==> IsDigit(digits[i])
    ensures s == ChunkText(digits)
  {
    s := [];
    assert digits[0..] == digits;
    for i := 0 to |digits|
      invariant s + ChunkText(digits[i..]) == ChunkText(digits)
    {
      var d, pos := digits[i], |digits| - i - 1;
      FirstDigit(digits, i);
      SilentZero(pos);
      hide ChunkText, DigitText;
      Associative(s, DigitText(d, pos), ChunkText(digits[i + 1..]));
      if d != 0 { s := s + DigitText(d, pos); } else { assert s + [] == s; }
    }
    assert digits[|digits|..] == [];
  }

  lemma SilentZero(pos: nat)
    requires pos < 4
    ensures DigitText(0, pos) == []
  {}

  lemma Associative(s: Text, t: Text, u: Text)
    ensures s + (t + u) == (s + t) + u
  {}

  lemma FirstDigit(ds: seq<nat>, i: nat)
    requires |ds| <= 4 && i < |ds| && forall k :: 0 <= k < |ds| ==> IsDigit(ds[k])
    ensures ChunkText(ds[i..]) == DigitText(ds[i], |ds| - i - 1) + ChunkText(ds[i + 1..])
  {}
}
