/**
 Printing a crore amount (src/compose/blocks.ts:29-61): five bands, each rounded to its own place, and the
 older single-scale printer. Amounts are exact; digit grouping and glyphs are left out, a printed figure
 is its sign, its number and its unit.
 */
module Money {
  datatype Unit = LakhCrore | Crore | Lakh | Rupee

  datatype Printed = Printed(negative: bool, number: real, unit: Unit)

  function RoundWhole(x: real): real { (x + 0.5).Floor as real }

  function RoundCents(x: real): real { RoundWhole(x * 100.0) / 100.0 }

  function Abs(x: real): real { if x < 0.0 then -x else x }

  function Money(value: real): Printed {
    var v := Abs(value);
    var negative := value < 0.0;
    if v == 0.0 then Printed(false, 0.0, Rupee)
    else if v >= 100000.0 then Printed(negative, RoundCents(v / 100000.0), LakhCrore)
    else if v >= 100.0 then Printed(negative, RoundWhole(v), Crore)
    else if v >= 1.0 then Printed(negative, RoundCents(v), Crore)
    else if v >= 0.01 then Printed(negative, RoundCents(v * 100.0), Lakh)
    else Printed(negative, RoundWhole(v * 10000000.0), Rupee)
  }

  /** The corporate printer: whole crore below a lakh crore. Math.round takes a half upwards. */
  function Cr(value: real): Printed {
    if value >= 100000.0 then Printed(false, RoundCents(value / 100000.0), LakhCrore)
    else
      var whole := RoundWhole(value);
      Printed(whole < 0.0, Abs(whole), Crore)
  }

  function InCrore(number: real, u: Unit): real {
    match u
    case LakhCrore => number * 100000.0
    case Crore => number
    case Lakh => number / 100.0
    case Rupee => number / 10000000.0
  }

  /** What a reader takes the print to mean, in crore. */
  function ReadBack(p: Printed): real {
    if p.negative then -InCrore(p.number, p.unit) else InCrore(p.number, p.unit)
  }

  const HALF_A_RUPEE := 0.00000005

  // ---------- rounding ----------

  lemma RoundWholeIsNear(x: real)
    ensures -0.5 <= RoundWhole(x) - x <= 0.5
  {
  }

  lemma RoundCentsIsNear(x: real)
    ensures -0.005 <= RoundCents(x) - x <= 0.005
  {
    RoundWholeIsNear(x * 100.0);
  }

  lemma RoundWholeIsMonotone(x: real, y: real)
    requires x <= y
    ensures RoundWhole(x) <= RoundWhole(y)
  {
    var i, j := (x + 0.5).Floor, (y + 0.5).Floor;
    assert i as real <= x + 0.5 && y + 0.5 < j as real + 1.0;
    assert (i - j) as real < 1.0;
  }

  lemma RoundCentsIsMonotone(x: real, y: real)
    requires x <= y
    ensures RoundCents(x) <= RoundCents(y)
  {
    RoundWholeIsMonotone(x * 100.0, y * 100.0);
  }

  // ---------- main results ----------

  /** Which band a figure falls in, smallest first. */
  function Band(v: real): nat {
    if v >= 100000.0 then 4 else if v >= 100.0 then 3 else if v >= 1.0 then 2 else if v >= 0.01 then 1 else 0
  }

  /** The least figure of each band, which its band prints exactly. */
  function Floor(band: nat): real {
    if band >= 4 then 100000.0 else if band == 3 then 100.0 else if band == 2 then 1.0
    else if band == 1 then 0.01 else 0.0
  }

  lemma ReadBackIsOdd(value: real)
    ensures ReadBack(Money(-value)) == -ReadBack(Money(value))
  {
    var p, q := Money(value), Money(-value);
    if value != 0.0 {
      assert Abs(-value) == Abs(value);
      assert q == p.(negative := !p.negative);
    }
  }

  lemma PositiveErrorIsBounded(v: real)
    requires v >= 0.0
    ensures v >= 0.01 ==> Abs(ReadBack(Money(v)) - v) <= 0.005 * v
    ensures v < 0.01 ==> Abs(ReadBack(Money(v)) - v) <= HALF_A_RUPEE
  {
    match Band(v) {
      case 4 => RoundCentsIsNear(v / 100000.0);
      case 3 => RoundWholeIsNear(v);
      case 2 => RoundCentsIsNear(v);
      case 1 => RoundCentsIsNear(v * 100.0);
      case _ => RoundWholeIsNear(v * 10000000.0);
    }
  }

  /** What is read back is within half a percent of the figure from one hundredth of a crore up, and within
      half a rupee of it below. */
  lemma ErrorIsBounded(value: real)
    ensures Abs(value) >= 0.01 ==> Abs(ReadBack(Money(value)) - value) <= 0.005 * Abs(value)
    ensures Abs(value) < 0.01 ==> Abs(ReadBack(Money(value)) - value) <= HALF_A_RUPEE
  {
    PositiveErrorIsBounded(Abs(value));
    if value < 0.0 { ReadBackIsOdd(value); }
  }

  /** A band's prints stay between its own floor and the next one's: rounding up can reach the next band's
      least figure, and never passes it. */
  lemma BandsDoNotOverlap(v: real)
    requires v >= 0.0
    ensures Floor(Band(v)) <= ReadBack(Money(v))
    ensures Band(v) < 4 ==> ReadBack(Money(v)) <= Floor(Band(v) + 1)
  {
    if v >= 100000.0 {
      RoundCentsIsMonotone(1.0, v / 100000.0);
    } else if v >= 100.0 {
      RoundWholeIsMonotone(100.0, v);
      RoundWholeIsMonotone(v, 100000.0);
    } else if v >= 1.0 {
      RoundCentsIsMonotone(1.0, v);
      RoundCentsIsMonotone(v, 100.0);
    } else if v >= 0.01 {
      RoundCentsIsMonotone(1.0, v * 100.0);
      RoundCentsIsMonotone(v * 100.0, 100.0);
    } else {
      RoundWholeIsMonotone(0.0, v * 10000000.0);
      RoundWholeIsMonotone(v * 10000000.0, 100000.0);
    }
  }

  lemma MonotoneInBand(v: real, w: real)
    requires 0.0 <= v <= w && Band(v) == Band(w)
    ensures ReadBack(Money(v)) <= ReadBack(Money(w))
  {
    match Band(v) {
      case 4 => RoundCentsIsMonotone(v / 100000.0, w / 100000.0);
      case 3 => RoundWholeIsMonotone(v, w);
      case 2 => RoundCentsIsMonotone(v, w);
      case 1 => RoundCentsIsMonotone(v * 100.0, w * 100.0);
      case _ =>
        RoundWholeIsMonotone(v * 10000000.0, w * 10000000.0);
        BandsDoNotOverlap(w);
    }
  }

  lemma MonotoneFromZero(v: real, w: real)
    requires 0.0 <= v <= w
    ensures ReadBack(Money(v)) <= ReadBack(Money(w))
  {
    if Band(v) == Band(w) {
      MonotoneInBand(v, w);
    } else {
      BandsDoNotOverlap(v);
      BandsDoNotOverlap(w);
    }
  }

  /** A larger figure never reads as a smaller one, across all five bands and both signs. */
  lemma PrintingIsMonotone(v: real, w: real)
    requires v <= w
    ensures ReadBack(Money(v)) <= ReadBack(Money(w))
  {
    if v >= 0.0 {
      MonotoneFromZero(v, w);
    } else if w <= 0.0 {
      MonotoneFromZero(-w, -v);
      ReadBackIsOdd(v);
      ReadBackIsOdd(w);
    } else {
      BandsDoNotOverlap(w);
      BandsDoNotOverlap(-v);
      ReadBackIsOdd(v);
    }
  }

  /** The older printer is within half a crore, or half a percent, of the figure, and prints no negative number. */
  lemma CrErrorIsBounded(value: real)
    ensures Cr(value).number >= 0.0
    ensures Abs(ReadBack(Cr(value)) - value) <= if value < 100000.0 then 0.5 else 0.005 * value
  {
    RoundWholeIsNear(value);
    if value >= 100000.0 {
      RoundCentsIsNear(value / 100000.0);
      RoundCentsIsMonotone(1.0, value / 100000.0);
    }
  }

  /** From a hundred crore up the two printers agree to the letter. */
  lemma AgreesWithCrAtScale(value: real)
    requires value >= 100.0
    ensures Money(value) == Cr(value)
  {
    if value < 100000.0 { RoundWholeIsMonotone(100.0, value); }
  }

  /** A printed zero means less than half a rupee: the figure need not be zero. */
  lemma ZeroMeansUnderHalfARupee(value: real)
    ensures ReadBack(Money(value)) == 0.0 <==> Abs(value) < HALF_A_RUPEE
  {
    var v := Abs(value);
    if value < 0.0 { ReadBackIsOdd(value); }
    BandsDoNotOverlap(v);
    if v < 0.01 && v > 0.0 { assert RoundWhole(v * 10000000.0) == 0.0 <==> v * 10000000.0 < 0.5; }
  }

  /** The printer it replaced read every figure under half a crore as zero. */
  lemma CrPrintsZeroForARetailBook(value: real)
    ensures 0.0 <= value < 100.0 ==> (ReadBack(Cr(value)) == 0.0 <==> value < 0.5)
    ensures 0.01 <= value < 0.5 ==> ReadBack(Cr(value)) == 0.0 && ReadBack(Money(value)) > 0.0
  {
    ZeroMeansUnderHalfARupee(value);
    if value >= 0.0 { BandsDoNotOverlap(value); }
  }
}
