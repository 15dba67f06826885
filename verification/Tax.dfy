/** The country-aware tax engine and the payable total built on it. */
module Tax {
  import opened Prelude
  import opened Rounding

  datatype Country = IN | AU

  /** The CGST/SGST odd-paisa rule of an Indian tenant. */
  datatype Split = ExactTotal | EqualHalfUp | EqualHalfEven

  type BasisPoints = r: int | 0 <= r <= 10_000

  datatype Registration = Registration(
    taxProfile: string,
    compositionScheme: bool,
    gstRegistered: bool,
    rate: Option<BasisPoints>,
    split: Split)

  datatype TaxLine = TaxLine(taxLabel: string, amount: int)

  datatype TaxResult = TaxResult(tax: int, inclusive: bool, breakdown: seq<TaxLine>, split: Option<Split>)

  function Lower(c: char): char {
    if 'A' <= c <= 'Z' then c - 'A' + 'a' else c
  }

  /** The free-text profile names IGST, in any letter case. */
  predicate IsIgstProfile(p: string) {
    exists i :: 0 <= i <= |p| - 4 && IgstAt(p, i)
  }

  predicate IgstAt(p: string, i: int)
    requires 0 <= i <= |p| - 4
  {
    Lower(p[i]) == 'i' && Lower(p[i + 1]) == 'g' && Lower(p[i + 2]) == 's' && Lower(p[i + 3]) == 't'
  }

  function RateOf(reg: Registration, standard: BasisPoints): BasisPoints {
    if reg.rate.Some? then reg.rate.value else standard
  }

  /** The two halves of an Indian GST amount, CGST first. */
  function GstHalves(taxed: int, split: Split): (int, int) {
    match split
    case ExactTotal =>
      var total := RoundHalfUp(taxed, 10_000);
      var cgst := TruncDiv(total, 2);
      (cgst, total - cgst)
    case EqualHalfUp =>
      var half := RoundHalfUp(taxed, 20_000);
      (half, half)
    case EqualHalfEven =>
      var half := RoundHalfEven(taxed, 20_000);
      (half, half)
  }

  function ComputeTax(country: Country, reg: Registration, subtotal: int): TaxResult {
    if country == IN then
      if reg.compositionScheme then TaxResult(0, false, [], None)
      else
        var taxed := subtotal * RateOf(reg, 500);
        if IsIgstProfile(reg.taxProfile) then
          var igst := RoundHalfUp(taxed, 10_000);
          TaxResult(igst, false, [TaxLine("IGST", igst)], None)
        else
          var (cgst, sgst) := GstHalves(taxed, reg.split);
          TaxResult(cgst + sgst, false, [TaxLine("CGST", cgst), TaxLine("SGST", sgst)], Some(reg.split))
    else if !reg.gstRegistered then TaxResult(0, false, [], None)
    else
      var gst := subtotal - RoundHalfUp(subtotal * 10_000, 10_000 + RateOf(reg, 1_000));
      TaxResult(gst, true, [TaxLine("GST", gst)], None)
  }

  /** What the customer owes: exclusive tax sits on top, inclusive tax is already inside. */
  function Payable(subtotal: int, tax: int, discount: int, inclusive: bool): int {
    if inclusive then subtotal - discount else subtotal + tax - discount
  }

  function AmountOf(l: TaxLine): int {
    l.amount
  }

  /** The total owed for a taxable value with no discount left to take off. */
  function TotalFor(country: Country, reg: Registration, taxable: int): int {
    var t := ComputeTax(country, reg, taxable);
    Payable(taxable, t.tax, 0, t.inclusive)
  }

  // ---- The breakdown ---------------------------------------------------------------------------

  /** The printed lines always add up to the tax charged. */
  lemma {:induction false} BreakdownSumsToTax(country: Country, reg: Registration, subtotal: int)
    ensures SumBy(ComputeTax(country, reg, subtotal).breakdown, AmountOf) == ComputeTax(country, reg, subtotal).tax
  {
    var b := ComputeTax(country, reg, subtotal).breakdown;
    if |b| == 1 {
      assert b[..0] == [];
    } else if |b| == 2 {
      assert b[..1] == [b[0]];
      assert [b[0]][..0] == [];
      assert SumBy(b[..1], AmountOf) == b[0].amount;
    }
  }

  /** The exact split charges what IGST would and the halves are at most one apart, the larger one last. */
  lemma {:induction false} ExactSplitEqualsIgst(taxed: int)
    ensures var (cgst, sgst) := GstHalves(taxed, ExactTotal);
            && cgst + sgst == RoundHalfUp(taxed, 10_000)
            && (taxed >= 0 ==> cgst <= sgst <= cgst + 1)
            && (taxed < 0 ==> cgst - 1 <= sgst <= cgst)
  {
    RoundHalfUpNearest(taxed, 10_000);
  }

  /** Rounding each half on its own moves the total by at most one minor unit. */
  lemma {:induction false} EqualHalvesNearIgst(taxed: int, split: Split)
    ensures var (cgst, sgst) := GstHalves(taxed, split);
            -1 <= cgst + sgst - RoundHalfUp(taxed, 10_000) <= 1
  {
    RoundHalfUpNearest(taxed, 10_000);
    RoundHalfUpNearest(taxed, 20_000);
    RoundHalfEvenNearest(taxed, 20_000);
  }

  // ---- What is charged, rule by rule -----------------------------------------------------------

  /** The letters i, g, s, t stand next to each other somewhere, in any case. */
  ghost predicate SaysIgst(p: string) {
    exists i :: 0 <= i <= |p| - 4 && SaysAt(p, i)
  }

  ghost predicate SaysAt(p: string, i: int)
    requires 0 <= i <= |p| - 4
  {
    p[i] in "iI" && p[i + 1] in "gG" && p[i + 2] in "sS" && p[i + 3] in "tT"
  }

  lemma {:induction false} LowerIs(c: char)
    ensures Lower(c) == 'i' <==> c in "iI"
    ensures Lower(c) == 'g' <==> c in "gG"
    ensures Lower(c) == 's' <==> c in "sS"
    ensures Lower(c) == 't' <==> c in "tT"
  {
  }

  lemma {:induction false} IgstAtIff(p: string, i: int)
    requires 0 <= i <= |p| - 4
    ensures IgstAt(p, i) <==> SaysAt(p, i)
  {
    LowerIs(p[i]);
    LowerIs(p[i + 1]);
    LowerIs(p[i + 2]);
    LowerIs(p[i + 3]);
  }

  lemma {:induction false} IgstProfileIff(p: string)
    ensures IsIgstProfile(p) <==> SaysIgst(p)
  {
    forall i | 0 <= i <= |p| - 4
      ensures IgstAt(p, i) <==> SaysAt(p, i)
    {
      IgstAtIff(p, i);
    }
  }

  /** The two printed halves under each rounding rule, for a value times its rate in basis points. */
  ghost predicate Halved(taxed: int, split: Split, cgst: int, sgst: int) {
    match split
    case ExactTotal =>
      && Nearest(taxed, 10_000, cgst + sgst) && TieAway(taxed, 10_000, cgst + sgst)
      && (cgst + sgst >= 0 ==> cgst <= sgst <= cgst + 1)
      && (cgst + sgst < 0 ==> cgst - 1 <= sgst <= cgst)
    case EqualHalfUp => cgst == sgst && Nearest(taxed, 20_000, cgst) && TieAway(taxed, 20_000, cgst)
    case EqualHalfEven => cgst == sgst && Nearest(taxed, 20_000, cgst) && TieEven(taxed, 20_000, cgst)
  }

  lemma {:induction false} HalvesAre(taxed: int, split: Split)
    ensures Halved(taxed, split, GstHalves(taxed, split).0, GstHalves(taxed, split).1)
  {
    RoundHalfUpNearest(taxed, 10_000);
    RoundHalfUpNearest(taxed, 20_000);
    RoundHalfEvenNearest(taxed, 20_000);
  }

  /**
   * India: a composition tenant charges nothing; an IGST profile charges the configured rate, five per cent by default, of the
   * taxable value to the nearest unit; any other charges it as CGST and SGST under the tenant's rounding rule. On top of the price.
   */
  lemma {:induction false} IndianTax(reg: Registration, subtotal: int)
    ensures var r := ComputeTax(IN, reg, subtotal);
            var rate := if reg.rate.Some? then reg.rate.value else 500;
            && !r.inclusive
            && (reg.compositionScheme ==> r.tax == 0 && r.breakdown == [] && r.split == None)
            && (!reg.compositionScheme && SaysIgst(reg.taxProfile) ==>
                  && r.breakdown == [TaxLine("IGST", r.tax)] && r.split == None
                  && Nearest(subtotal * rate, 10_000, r.tax) && TieAway(subtotal * rate, 10_000, r.tax))
            && (!reg.compositionScheme && !SaysIgst(reg.taxProfile) ==>
                  && r.split == Some(reg.split)
                  && exists cgst, sgst :: r.breakdown == [TaxLine("CGST", cgst), TaxLine("SGST", sgst)] && r.tax == cgst + sgst && Halved(subtotal * rate, reg.split, cgst, sgst))
  {
    var rate := if reg.rate.Some? then reg.rate.value else 500;
    IgstProfileIff(reg.taxProfile);
    RoundHalfUpNearest(subtotal * rate, 10_000);
    HalvesAre(subtotal * rate, reg.split);
  }

  /**
   * Australia: an unregistered tenant charges nothing; a registered one's price includes the configured rate, ten per cent by
   * default: the ex-tax part is the nearest to price over one plus the rate, and the tax the rate's share of it.
   */
  lemma {:induction false} AuGstShare(reg: Registration, price: nat)
    ensures var r := ComputeTax(AU, reg, price);
            var rate: int := if reg.rate.Some? then reg.rate.value else 1_000;
            var exTax := price - r.tax;
            && (!reg.gstRegistered ==> r.tax == 0 && !r.inclusive && r.breakdown == [])
            && (reg.gstRegistered ==>
                  && r.inclusive && r.breakdown == [TaxLine("GST", r.tax)]
                  && 0 <= r.tax <= price
                  && Nearest(10_000 * price, 10_000 + rate, exTax) && TieAway(10_000 * price, 10_000 + rate, exTax)
                  && -(10_000 + rate) <= 2 * (10_000 * r.tax - exTax * rate) <= 10_000 + rate)
  {
    AuSplit(if reg.rate.Some? then reg.rate.value else 1_000, price);
  }

  /** An inclusive price and its ex-tax part at a rate. */
  lemma {:induction false} AuSplit(rate: BasisPoints, price: nat)
    ensures var d := 10_000 + rate;
            var exTax := RoundHalfUp(price * 10_000, d);
            && 0 <= exTax <= price
            && Nearest(price * 10_000, d, exTax) && TieAway(price * 10_000, d, exTax)
            && -d <= 2 * (10_000 * (price - exTax) - exTax * rate) <= d
  {
    var d: int := 10_000 + rate;
    var exTax := RoundHalfUp(price * 10_000, d);
    RoundHalfUpNearest(price * 10_000, d);
    assert d * exTax == 10_000 * exTax + exTax * rate;
    ExTaxStep(rate, 0, price);
    RoundHalfUpNearest(0, d);
    SameMultiple(d, RoundHalfUp(0, d), 0);
    NearestMonotone(-1, price * 10_000, d, 0, exTax);
  }

  /** Indian tax comes on top of the taxable value; an Australian price already is the total. */
  lemma {:induction false} TotalIs(country: Country, reg: Registration, taxable: int)
    ensures TotalFor(country, reg, taxable) == taxable + if country == IN then ComputeTax(country, reg, taxable).tax else 0
  {
  }

  // ---- Monotonicity ----------------------------------------------------------------------------

  /** Between two prices the ex-tax part grows by no more than the price does. */
  lemma {:induction false} ExTaxStep(rate: BasisPoints, x: int, y: int)
    requires x <= y
    ensures var d := 10_000 + rate;
            RoundHalfUp(y * 10_000, d) - RoundHalfUp(x * 10_000, d) <= y - x
  {
    var d: int := 10_000 + rate;
    var ex, ey := RoundHalfUp(x * 10_000, d), RoundHalfUp(y * 10_000, d);
    if rate == 0 {
      RoundHalfUpUnique(x * 10_000, d, x);
      RoundHalfUpUnique(y * 10_000, d, y);
    } else if x < y && ey > ex + (y - x) {
      RoundHalfUpNearest(x * 10_000, d);
      RoundHalfUpNearest(y * 10_000, d);
      MultipleGap(d, ey, ex, y - x + 1);
      DistributeRate(rate, y - x);
    }
  }

  lemma {:induction false} DistributeRate(rate: int, k: int)
    requires rate > 0 && k > 0
    ensures (10_000 + rate) * (k + 1) > 10_000 * k + (10_000 + rate)
  {
    assert (10_000 + rate) * (k + 1) == 10_000 * k + rate * k + (10_000 + rate);
  }

  /** A larger taxable value never lowers the tax. */
  lemma {:induction false} TaxMonotone(country: Country, reg: Registration, x: int, y: int)
    requires x <= y
    ensures ComputeTax(country, reg, x).tax <= ComputeTax(country, reg, y).tax
  {
    if x < y {
      if country == AU {
        ExTaxStep(RateOf(reg, 1_000), x, y);
      } else {
        var rate := RateOf(reg, 500);
        if rate == 0 {
          assert x * rate == y * rate;
        } else {
          MultipleGap(rate, y, x, 1);
          GstMonotone(x * rate, y * rate, reg.split);
        }
      }
    }
  }

  lemma {:induction false} GstMonotone(a: int, b: int, split: Split)
    requires a < b
    ensures RoundHalfUp(a, 10_000) <= RoundHalfUp(b, 10_000)
    ensures GstHalves(a, split).0 + GstHalves(a, split).1 <= GstHalves(b, split).0 + GstHalves(b, split).1
  {
    RoundHalfUpNearest(a, 10_000);
    RoundHalfUpNearest(b, 10_000);
    NearestMonotone(a, b, 10_000, RoundHalfUp(a, 10_000), RoundHalfUp(b, 10_000));
    RoundHalfUpNearest(a, 20_000);
    RoundHalfUpNearest(b, 20_000);
    NearestMonotone(a, b, 20_000, RoundHalfUp(a, 20_000), RoundHalfUp(b, 20_000));
    RoundHalfEvenNearest(a, 20_000);
    RoundHalfEvenNearest(b, 20_000);
    NearestMonotone(a, b, 20_000, RoundHalfEven(a, 20_000), RoundHalfEven(b, 20_000));
  }

  /** The total owed never falls when the taxable value grows. */
  lemma {:induction false} TotalMonotone(country: Country, reg: Registration, x: int, y: int)
    requires x <= y
    ensures TotalFor(country, reg, x) <= TotalFor(country, reg, y)
  {
    TaxMonotone(country, reg, x, y);
  }

  /** Nothing is owed on nothing, and tax and total are never negative. */
  lemma {:induction false} TaxNonNegative(country: Country, reg: Registration, x: nat)
    ensures ComputeTax(country, reg, 0).tax == 0
    ensures 0 <= ComputeTax(country, reg, x).tax
    ensures 0 <= TotalFor(country, reg, x)
  {
    var zero := ComputeTax(country, reg, 0);
    RoundHalfUpUnique(0, 10_000, 0);
    RoundHalfUpUnique(0, 20_000, 0);
    RoundHalfUpUnique(0, 10_000 + RateOf(reg, 1_000), 0);
    RoundHalfEvenUnique(0, 20_000, 0);
    TaxMonotone(country, reg, 0, x);
  }

  /** A larger discount never raises the tax or the payable total. */
  lemma {:induction false} DiscountNeverRaises(country: Country, reg: Registration, subtotal: int, small: nat, large: nat)
    requires small <= large
    ensures var a := ComputeTax(country, reg, subtotal - small);
            var b := ComputeTax(country, reg, subtotal - large);
            && b.tax <= a.tax
            && Payable(subtotal, b.tax, large, b.inclusive) <= Payable(subtotal, a.tax, small, a.inclusive)
  {
    TaxMonotone(country, reg, subtotal - large, subtotal - small);
  }
}
