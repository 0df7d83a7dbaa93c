/** Usage to money: banker's rounding at eight places, the cost of a call, its estimate, and the
    synthesized provider whose usage the estimate covers. */
module Accounting {
  import opened Ledger

  // ---------------------------------------------------------------- rounding

  /** An amount in units of 10^-8, rounded to a whole unit, ties to the even one. */
  function HalfEven(x: real): int {
    var low := x.Floor;
    var rest := x - low as real;
    if rest < 0.5 || (rest == 0.5 && low % 2 == 0) then low else low + 1
  }

  function Distance(x: real, n: int): real {
    if x < n as real then n as real - x else x - n as real
  }

  /** Rounding picks the one whole unit at most half a unit away, and of two the even one. */
  lemma HalfEvenIsTheNearestEven(x: real, n: int)
    ensures HalfEven(x) == n <==> Distance(x, n) <= 0.5 && (Distance(x, n) == 0.5 ==> n % 2 == 0)
  {
    var low := x.Floor;
    if Distance(x, n) <= 0.5 {
      assert n == low || n == low + 1;
    }
  }

  lemma HalfEvenIsMonotone(x: real, y: real)
    requires x <= y
    ensures HalfEven(x) <= HalfEven(y)
  {
    HalfEvenIsTheNearestEven(x, HalfEven(x));
    HalfEvenIsTheNearestEven(y, HalfEven(y));
  }

  // ---------------------------------------------------------------- the cost of a call

  datatype Usage = Usage(prompt: int, completion: int)

  /** Prices per thousand tokens, in units of 10^-8 but not necessarily whole. */
  datatype Price = Price(input: real, output: real, currency: string)

  datatype Cost = Cost(input: Money, output: Money, total: Money)

  function Exact(tokens: int, per1k: real): real {
    tokens as real / 1000.0 * per1k
  }

  function ComputeCost(usage: Usage, price: Price): Cost {
    var input := HalfEven(Exact(usage.prompt, price.input));
    var output := HalfEven(Exact(usage.completion, price.output));
    var total := HalfEven((input + output) as real);
    Cost(Money(input, price.currency), Money(output, price.currency), Money(total, price.currency))
  }

  /** The total is the sum of the two rounded parts: rounding it again changes nothing, so it is within
      one unit of the exact cost. */
  lemma TotalIsTheSumOfTheParts(usage: Usage, price: Price)
    ensures var c := ComputeCost(usage, price);
            && c.total.units == c.input.units + c.output.units
            && Distance(Exact(usage.prompt, price.input), c.input.units) <= 0.5
            && Distance(Exact(usage.completion, price.output), c.output.units) <= 0.5
            && Distance(Exact(usage.prompt, price.input) + Exact(usage.completion, price.output), c.total.units) <= 1.0
  {
    var c := ComputeCost(usage, price);
    var sum := c.input.units + c.output.units;
    HalfEvenIsTheNearestEven(sum as real, sum);
    HalfEvenIsTheNearestEven(Exact(usage.prompt, price.input), c.input.units);
    HalfEvenIsTheNearestEven(Exact(usage.completion, price.output), c.output.units);
  }

  /** So many tokens at a price for a thousand: the nearest whole amount, of two the even one. */
  predicate NearestPrice(units: int, tokens: int, per1k: real) {
    var excess := 1000.0 * units as real - tokens as real * per1k;
    -500.0 <= excess <= 500.0 && (excess == -500.0 || excess == 500.0 ==> units % 2 == 0)
  }

  lemma RoundedPriceIsNearest(tokens: int, per1k: real)
    ensures NearestPrice(HalfEven(Exact(tokens, per1k)), tokens, per1k)
  {
    var x := Exact(tokens, per1k);
    HalfEvenIsTheNearestEven(x, HalfEven(x));
    assert 1000.0 * x == tokens as real * per1k;
  }

  /** Each part is its tokens' price, prompt at the input price and completion at the output price, and the total is
      their sum, all in the price's currency. */
  lemma CostsArePricesPerThousand(usage: Usage, price: Price)
    ensures var c := ComputeCost(usage, price);
            && NearestPrice(c.input.units, usage.prompt, price.input)
            && NearestPrice(c.output.units, usage.completion, price.output)
            && c.total.units == c.input.units + c.output.units
            && c.input.currency == c.output.currency == c.total.currency == price.currency
  {
    RoundedPriceIsNearest(usage.prompt, price.input);
    RoundedPriceIsNearest(usage.completion, price.output);
    TotalIsTheSumOfTheParts(usage, price);
  }

  lemma ExactIsMonotone(fewer: int, more: int, per1k: real)
    requires fewer <= more && per1k >= 0.0
    ensures Exact(fewer, per1k) <= Exact(more, per1k)
  {
    var f, m := fewer as real / 1000.0, more as real / 1000.0;
    assert f <= m;
    assert (m - f) * per1k >= 0.0;
  }

  /** Componentwise larger usage never costs less, in either part or in total. */
  lemma MoreUsageNeverCostsLess(less: Usage, more: Usage, price: Price)
    requires less.prompt <= more.prompt && less.completion <= more.completion
    requires price.input >= 0.0 && price.output >= 0.0
    ensures ComputeCost(less, price).input.units <= ComputeCost(more, price).input.units
    ensures ComputeCost(less, price).output.units <= ComputeCost(more, price).output.units
    ensures ComputeCost(less, price).total.units <= ComputeCost(more, price).total.units
  {
    ExactIsMonotone(less.prompt, more.prompt, price.input);
    ExactIsMonotone(less.completion, more.completion, price.output);
    HalfEvenIsMonotone(Exact(less.prompt, price.input), Exact(more.prompt, price.input));
    HalfEvenIsMonotone(Exact(less.completion, price.output), Exact(more.completion, price.output));
    TotalIsTheSumOfTheParts(less, price);
    TotalIsTheSumOfTheParts(more, price);
  }

  lemma CostIsNonNegative(usage: Usage, price: Price)
    requires usage.prompt >= 0 && usage.completion >= 0 && price.input >= 0.0 && price.output >= 0.0
    ensures ComputeCost(usage, price).total.units >= 0
  {
    MoreUsageNeverCostsLess(Usage(0, 0), usage, price);
  }

  // ---------------------------------------------------------------- estimate and synthesized usage

  function AtLeastOne(n: int): int { if n < 1 then 1 else n }

  /** The pre-call estimate for a payload of so many characters. */
  function EstimateUsage(payloadChars: nat): Usage {
    var prompt := AtLeastOne(payloadChars / 4);
    Usage(prompt, prompt)
  }

  /** What the in-memory provider reports for the same payload. */
  function SynthesizedUsage(payloadChars: nat): Usage {
    var prompt := AtLeastOne(payloadChars / 4);
    Usage(prompt, AtLeastOne(prompt / 2))
  }

  /** A quarter of the characters, rounded down but at least one token, and as many again for the answer; the
      synthesized answer has half as many as its prompt, rounded down but at least one. */
  lemma UsageOfAPayload(payloadChars: nat)
    ensures var e, y := EstimateUsage(payloadChars), SynthesizedUsage(payloadChars);
            && e.completion == e.prompt == y.prompt
            && (payloadChars < 8 ==> e.prompt == 1)
            && (payloadChars >= 4 ==> 4 * e.prompt <= payloadChars < 4 * e.prompt + 4)
            && (y.prompt < 4 ==> y.completion == 1)
            && (y.prompt >= 2 ==> 2 * y.completion <= y.prompt < 2 * y.completion + 2)
  {
  }

  /** With the in-memory provider and an unchanged price the actual cost never passes the estimate. */
  lemma EstimateCoversTheSynthesizedCall(payloadChars: nat, price: Price)
    requires price.input >= 0.0 && price.output >= 0.0
    ensures 0 <= ComputeCost(SynthesizedUsage(payloadChars), price).total.units
              <= ComputeCost(EstimateUsage(payloadChars), price).total.units
  {
    MoreUsageNeverCostsLess(SynthesizedUsage(payloadChars), EstimateUsage(payloadChars), price);
    CostIsNonNegative(SynthesizedUsage(payloadChars), price);
  }

  // ---------------------------------------------------------------- accounting for a response

  datatype Defect = MissingUsage | MalformedUsage | UnknownPrice

  datatype Accounted = Accounted(usage: Usage, cost: Cost) | Unaccountable(defect: Defect)

  /** The actual cost of a response, or the defect that makes it unaccountable. */
  function Account(usage: Option<Usage>, price: Option<Price>): Accounted {
    if usage.None? then Unaccountable(MissingUsage)
    else if usage.value.prompt < 0 || usage.value.completion < 0 then Unaccountable(MalformedUsage)
    else if price.None? then Unaccountable(UnknownPrice)
    else Accounted(usage.value, ComputeCost(usage.value, price.value))
  }

  /** A response is costed exactly if it reports usage, none of it negative, and its model has a price. */
  lemma AccountedExactly(usage: Option<Usage>, price: Option<Price>)
    ensures var a := Account(usage, price);
            && (a.Accounted? <==>
                  usage.Some? && usage.value.prompt >= 0 && usage.value.completion >= 0 && price.Some?)
            && (a.Accounted? ==> a.usage == usage.value && a.cost == ComputeCost(usage.value, price.value))
            && (a == Unaccountable(MissingUsage) <==> usage.None?)
            && (a == Unaccountable(MalformedUsage) <==>
                  usage.Some? && (usage.value.prompt < 0 || usage.value.completion < 0))
  {
  }
}
