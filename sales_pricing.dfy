// The sales totals engine: each line base is rounded to the cent, the bases
// are grouped by tax rate in an insertion-ordered dictionary, and the tax is
// rounded once over the whole sum.

module SalesPricing {
  import opened Common
  import opened Money

  /**
   * One pricing input: qty in thousandths, unit price in cents, the optional
   * discount and the tax rate in hundredths of a percent.
   */
  datatype PricingLine = PricingLine(qty: Milli, unitPrice: Cents, discountPct: Option<Hundredths>, taxRate: Hundredths)

  /** One entry of the rate -> summed base dictionary. */
  datatype Bucket = Bucket(rate: Hundredths, base: Cents)

  datatype Totals = Totals(totalBase: Cents, totalTax: Cents, total: Cents)

  /** `ln.get("discount_pct", 0)`. */
  function DiscountOf(ln: PricingLine): Hundredths
  {
    match ln.discountPct
      case None => 0
      case Some(d) => d
  }

  /** `qty * unit * (1.00 - disc/100)` exactly, in units of 10^-9. */
  function ExactLineBase(ln: PricingLine): int
  {
    ln.qty * ln.unitPrice * (10000 - DiscountOf(ln))
  }

  /** `money(qty * unit * (1.00 - disc/100))`: the cent amount nearest to the exact base, ties to even. */
  function LineBase(ln: PricingLine): (cents: Cents)
    ensures 2 * Abs(ExactLineBase(ln) - cents * 10_000_000) <= 10_000_000
    ensures 2 * Abs(ExactLineBase(ln) - cents * 10_000_000) == 10_000_000 ==> cents % 2 == 0
  {
    var e := ExactLineBase(ln);
    var q := Quantize(e, 9);
    assert Pow10(7) == 10_000_000;
    q
  }

  /** The exact tax of an amount at a rate, `b * r / 100`, in units of 10^-6. */
  function TaxUnits(base: Cents, rate: Hundredths): int
  {
    base * rate
  }

  function LineTaxUnits(ln: PricingLine): int
  {
    TaxUnits(LineBase(ln), ln.taxRate)
  }

  function Rates(bs: seq<Bucket>): seq<Hundredths>
  {
    if bs == [] then [] else [bs[0].rate] + Rates(bs[1..])
  }

  function SumBases(bs: seq<Bucket>): int
  {
    if bs == [] then 0 else bs[0].base + SumBases(bs[1..])
  }

  function SumBucketTax(bs: seq<Bucket>): int
  {
    if bs == [] then 0 else TaxUnits(bs[0].base, bs[0].rate) + SumBucketTax(bs[1..])
  }

  /** The base accumulated under `rate`, 0 when there is no such key (`dict.get(rate, 0)`). */
  function BucketBase(bs: seq<Bucket>, rate: Hundredths): Cents
  {
    if bs == [] then 0 else if bs[0].rate == rate then bs[0].base else BucketBase(bs[1..], rate)
  }

  lemma {:induction false} RatesLength(bs: seq<Bucket>)
    ensures |Rates(bs)| == |bs|
  {
    if bs != [] { RatesLength(bs[1..]); }
  }

  /**
   * `bases_por_iva[rate] = bases_por_iva.get(rate, 0) + base`: an existing key
   * keeps its place, a new key goes to the end.
   */
  function AddToBucket(bs: seq<Bucket>, rate: Hundredths, base: Cents): (r: seq<Bucket>)
    requires Distinct(Rates(bs))
    ensures Distinct(Rates(r))
    ensures Rates(r) == if rate in Rates(bs) then Rates(bs) else Rates(bs) + [rate]
    ensures BucketBase(r, rate) == BucketBase(bs, rate) + base
    ensures forall q :: q != rate ==> BucketBase(r, q) == BucketBase(bs, q)
    ensures SumBases(r) == SumBases(bs) + base
    ensures SumBucketTax(r) == SumBucketTax(bs) + TaxUnits(base, rate)
  {
    if bs == [] then
      [Bucket(rate, base)]
    else if bs[0].rate == rate then
      DistinctHead(bs);
      NotInRatesBase(bs[1..], rate);
      var r := [Bucket(rate, bs[0].base + base)] + bs[1..];
      assert r[1..] == bs[1..];
      assert TaxUnits(bs[0].base + base, rate) == TaxUnits(bs[0].base, rate) + TaxUnits(base, rate);
      r
    else
      DistinctTail(bs);
      var tail := AddToBucket(bs[1..], rate, base);
      var r := [bs[0]] + tail;
      assert r[1..] == tail;
      assert bs[0].rate !in Rates(tail) by {
        DistinctHead(bs);
      }
      DistinctCons(bs[0].rate, Rates(tail));
      r
  }

  lemma NotInRatesBase(bs: seq<Bucket>, rate: Hundredths)
    requires rate !in Rates(bs)
    ensures BucketBase(bs, rate) == 0
  {
  }

  lemma DistinctTail(bs: seq<Bucket>)
    requires bs != [] && Distinct(Rates(bs))
    ensures Distinct(Rates(bs[1..]))
  {
    RatesLength(bs);
    var rs := Rates(bs);
    assert Rates(bs[1..]) == rs[1..];
  }

  lemma DistinctHead(bs: seq<Bucket>)
    requires bs != [] && Distinct(Rates(bs))
    ensures bs[0].rate !in Rates(bs[1..])
  {
    RatesLength(bs);
    var rs := Rates(bs);
    assert Rates(bs[1..]) == rs[1..];
    assert rs[0] == bs[0].rate;
    forall k | 0 <= k < |rs[1..]| ensures rs[1..][k] != rs[0] {
      assert rs[1..][k] == rs[k + 1];
    }
  }

  lemma DistinctCons(x: Hundredths, xs: seq<Hundredths>)
    requires x !in xs && Distinct(xs)
    ensures Distinct([x] + xs)
  {
    var ys := [x] + xs;
    forall i, j | 0 <= i < j < |ys| ensures ys[i] != ys[j] {
      assert ys[j] == xs[j - 1];
      if i > 0 { assert ys[i] == xs[i - 1]; }
    }
  }

  /** The dictionary `bases_por_iva` after the loop, built line by line in order. */
  function Buckets(lines: seq<PricingLine>): (bs: seq<Bucket>)
    ensures Distinct(Rates(bs))
  {
    if lines == [] then []
    else
      var last := lines[|lines| - 1];
      AddToBucket(Buckets(lines[..|lines| - 1]), last.taxRate, LineBase(last))
  }

  /** Sum of the tax-free bases of the lines with the given rate. */
  function SumBasesAtRate(lines: seq<PricingLine>, rate: Hundredths): int
  {
    if lines == [] then 0
    else
      var last := lines[|lines| - 1];
      SumBasesAtRate(lines[..|lines| - 1], rate) + (if last.taxRate == rate then LineBase(last) else 0)
  }

  /**
   * `compute_invoice_totals`: the summed line bases, the tax rounded once over
   * the whole exact sum, and their sum.
   */
  function InvoiceTotals(lines: seq<PricingLine>): (t: Totals)
    ensures t.totalBase == SumOf(LineBase, lines)
    ensures t.totalTax == Quantize(SumOf(LineTaxUnits, lines), 6)
    ensures t.total == t.totalBase + t.totalTax
  {
    var bs := Buckets(lines);
    BucketSums(lines);
    QuantizeCents(SumBases(bs));
    var totalBase := Quantize(SumBases(bs), 2);
    var totalTax := Quantize(SumBucketTax(bs), 6);
    QuantizeCents(totalBase + totalTax);
    Totals(totalBase, totalTax, Quantize(totalBase + totalTax, 2))
  }

  /** The sums over the buckets are the sums over the lines. */
  lemma {:induction false} BucketSums(lines: seq<PricingLine>)
    ensures SumBases(Buckets(lines)) == SumOf(LineBase, lines)
    ensures SumBucketTax(Buckets(lines)) == SumOf(LineTaxUnits, lines)
  {
    if lines != [] {
      var init, last := lines[..|lines| - 1], lines[|lines| - 1];
      BucketSums(init);
      var bs := Buckets(init);
      assert Buckets(lines) == AddToBucket(bs, last.taxRate, LineBase(last));
      SumOfLast(LineBase, lines);
      SumOfLast(LineTaxUnits, lines);
    }
  }

  /** Each bucket holds exactly the bases of the lines carrying its rate. */
  lemma {:induction false} BucketHoldsItsLines(lines: seq<PricingLine>, rate: Hundredths)
    ensures BucketBase(Buckets(lines), rate) == SumBasesAtRate(lines, rate)
  {
    if lines != [] {
      BucketHoldsItsLines(lines[..|lines| - 1], rate);
    }
  }

  /** There is a bucket for a rate exactly when some line carries that rate. */
  lemma {:induction false} BucketPerRate(lines: seq<PricingLine>, rate: Hundredths)
    ensures rate in Rates(Buckets(lines)) <==> exists i :: 0 <= i < |lines| && lines[i].taxRate == rate
  {
    if lines != [] {
      var init, last := lines[..|lines| - 1], lines[|lines| - 1];
      BucketPerRate(init, rate);
      SomeRateSnoc(lines, rate);
      var bs := Buckets(init);
      assert Buckets(lines) == AddToBucket(bs, last.taxRate, LineBase(last));
      assert rate in Rates(Buckets(lines)) <==> rate in Rates(bs) || rate == last.taxRate;
    }
  }

  /** Some line carries the rate exactly when one before the last does, or the last does. */
  lemma SomeRateSnoc(lines: seq<PricingLine>, rate: Hundredths)
    requires lines != []
    ensures var init := lines[..|lines| - 1];
      (exists i :: 0 <= i < |lines| && lines[i].taxRate == rate) <==>
      (exists i :: 0 <= i < |init| && init[i].taxRate == rate) || lines[|lines| - 1].taxRate == rate
  {
    var init := lines[..|lines| - 1];
    if exists i :: 0 <= i < |init| && init[i].taxRate == rate {
      var i :| 0 <= i < |init| && init[i].taxRate == rate;
      assert lines[i].taxRate == rate;
    }
    if exists i :: 0 <= i < |lines| && lines[i].taxRate == rate {
      var i :| 0 <= i < |lines| && lines[i].taxRate == rate;
      if i < |init| { assert init[i].taxRate == rate; }
    }
  }

  /** The totals do not depend on the order of the lines. */
  lemma {:induction false} TotalsIgnoreLineOrder(a: seq<PricingLine>, b: seq<PricingLine>)
    requires multiset(a) == multiset(b)
    ensures InvoiceTotals(a) == InvoiceTotals(b)
  {
    SumOfPermutation(LineBase, a, b);
    SumOfPermutation(LineTaxUnits, a, b);
  }

  /** No lines: (0.00, 0.00, 0.00). */
  lemma NoLinesNoTotals()
    ensures InvoiceTotals([]) == Totals(0, 0, 0)
  {
    QuantizeCents(0);
  }

  /** A negative quantity is not clamped: a positive price gives a base that is not positive. */
  lemma {:induction false} NegativeQtyBase(ln: PricingLine)
    requires ln.qty < 0 && ln.unitPrice >= 0 && DiscountOf(ln) <= 10000
    ensures LineBase(ln) <= 0
  {
    assert ln.qty * ln.unitPrice <= 0;
    assert ExactLineBase(ln) <= 0 by {
      var p := ln.qty * ln.unitPrice;
      assert ExactLineBase(ln) == p * (10000 - DiscountOf(ln));
    }
    QuantizeNonPositive(ExactLineBase(ln), 9);
  }

  /** 3.500 x 10.55 = 36.925 rounds to 36.92 (the even cent); 21% tax 7.7532 rounds to 7.75. */
  lemma HalfEvenExample()
    ensures InvoiceTotals([PricingLine(3500, 1055, None, 2100)]) == Totals(3692, 775, 4467)
  {
    var ln := PricingLine(3500, 1055, None, 2100);
    assert ExactLineBase(ln) == 36_925_000_000;
    RoundHalfEvenUnique(36_925_000_000, 10_000_000, 3692);
    assert LineBase(ln) == 3692;
    RoundHalfEvenUnique(3692 * 2100, 10_000, 775);
    assert SumOf(LineBase, [ln]) == 3692;
    assert SumOf(LineTaxUnits, [ln]) == 3692 * 2100;
  }

  /** Qty -1.000 at 10.00 gives a base of -10.00. */
  lemma NegativeQtyExample()
    ensures LineBase(PricingLine(-1000, 1000, None, 2100)) == -1000
  {
    RoundHalfEvenUnique(-10_000_000_000, 10_000_000, -1000);
  }

  /**
   * 0.10 at 5% and 0.10 at 25%: the exact taxes 0.005 and 0.025 add up to
   * 0.03, while rounding each bucket would give 0.00 + 0.02.
   */
  lemma TaxRoundedOnceExample()
    ensures var lines := [PricingLine(1000, 10, None, 500), PricingLine(1000, 10, None, 2500)];
            InvoiceTotals(lines).totalTax == 3
            && Quantize(TaxUnits(10, 500), 6) + Quantize(TaxUnits(10, 2500), 6) == 2
  {
    var a, b := PricingLine(1000, 10, None, 500), PricingLine(1000, 10, None, 2500);
    RoundHalfEvenUnique(100_000_000, 10_000_000, 10);
    assert LineBase(a) == 10 && LineBase(b) == 10;
    assert [a, b][1..] == [b];
    assert SumOf(LineTaxUnits, [b]) == 25000;
    assert SumOf(LineTaxUnits, [a, b]) == 30000;
    RoundHalfEvenUnique(30000, 10_000, 3);
    RoundHalfEvenUnique(5000, 10_000, 0);
    RoundHalfEvenUnique(25000, 10_000, 2);
  }

  /** The loop of `compute_invoice_totals` over the lines, then the sums over the dictionary. */
  method ComputeInvoiceTotals(lines: seq<PricingLine>) returns (totalBase: Cents, totalTax: Cents, total: Cents)
    ensures Totals(totalBase, totalTax, total) == InvoiceTotals(lines)
  {
    var basesPorIva: seq<Bucket> := [];
    var i := 0;
    while i < |lines|
      invariant 0 <= i <= |lines|
      invariant basesPorIva == Buckets(lines[..i])
    {
      var ln := lines[i];
      var baseLine := LineBase(ln);
      assert lines[..i + 1][..i] == lines[..i];
      basesPorIva := AddToBucket(basesPorIva, ln.taxRate, baseLine);
      i := i + 1;
    }
    assert lines[..i] == lines;
    var sumBase, sumTax := SumDictionary(basesPorIva);
    totalBase := Quantize(sumBase, 2);
    totalTax := Quantize(sumTax, 6);
    total := Quantize(totalBase + totalTax, 2);
  }

  /** `sum(bases_por_iva.values())` and `sum(b * r / 100 for r, b in bases_por_iva.items())`, exact. */
  method SumDictionary(bs: seq<Bucket>) returns (sumBase: int, sumTax: int)
    ensures sumBase == SumBases(bs) && sumTax == SumBucketTax(bs)
  {
    sumBase, sumTax := 0, 0;
    var k := 0;
    while k < |bs|
      invariant 0 <= k <= |bs|
      invariant sumBase == SumBases(bs[..k]) && sumTax == SumBucketTax(bs[..k])
    {
      SplitLastBucket(bs[..k + 1]);
      assert bs[..k + 1][..k] == bs[..k];
      sumBase := sumBase + bs[k].base;
      sumTax := sumTax + TaxUnits(bs[k].base, bs[k].rate);
      k := k + 1;
    }
    assert bs[..k] == bs;
  }

  lemma {:induction false} SplitLastBucket(bs: seq<Bucket>)
    requires bs != []
    ensures SumBases(bs) == SumBases(bs[..|bs| - 1]) + bs[|bs| - 1].base
    ensures SumBucketTax(bs) == SumBucketTax(bs[..|bs| - 1]) + TaxUnits(bs[|bs| - 1].base, bs[|bs| - 1].rate)
  {
    if |bs| > 1 {
      SplitLastBucket(bs[1..]);
      assert bs[1..][..|bs| - 2] == bs[..|bs| - 1][1..];
    }
  }
}
