/** `usage.py`: the meter and the spend guard, with exact rates in place of floats. */
module Usage {
  datatype Usage = Usage(llmCalls: nat, inputTokens: nat, outputTokens: nat, searchCalls: nat)

  /** Dollar rates: per million tokens, and per call. */
  datatype Pricing = Pricing(inputPerMtok: real, outputPerMtok: real, perCall: real)
  {
    predicate NonNegative() { inputPerMtok >= 0.0 && outputPerMtok >= 0.0 && perCall >= 0.0 }
  }

  /** To the nearest integer, halves to the even one. */
  function Rounded(x: real): int
  {
    var low := x.Floor;
    var part := x - low as real;
    if part < 0.5 then low
    else if part > 0.5 then low + 1
    else if low % 2 == 0 then low else low + 1
  }

  function Amount(n: nat, rate: real): real { n as real * rate }

  /** The cost in micro-dollars. */
  function Cost(u: Usage, p: Pricing): int
  {
    Rounded(Amount(u.inputTokens, p.inputPerMtok) + Amount(u.outputTokens, p.outputPerMtok)
            + Amount(u.searchCalls, p.perCall * 1_000_000.0))
  }

  datatype Call = Llm(input: int, output: int) | Search

  function Positive(n: int): nat { if n > 0 then n else 0 }

  function Metered(u: Usage, c: Call): Usage
  {
    match c
    case Llm(input, output) =>
      Usage(u.llmCalls + 1, u.inputTokens + Positive(input), u.outputTokens + Positive(output), u.searchCalls)
    case Search => u.(searchCalls := u.searchCalls + 1)
  }

  class UsageMeter {
    var usage: Usage

    constructor ()
      ensures usage == Usage(0, 0, 0, 0)
    {
      usage := Usage(0, 0, 0, 0);
    }

    method RecordLlm(input: int, output: int)
      modifies this
      ensures usage == Metered(old(usage), Llm(input, output))
    {
      usage :=
        Usage(usage.llmCalls + 1, usage.inputTokens + Positive(input), usage.outputTokens + Positive(output),
              usage.searchCalls);
    }

    method RecordSearch()
      modifies this
      ensures usage == Metered(old(usage), Search)
    {
      usage := usage.(searchCalls := usage.searchCalls + 1);
    }
  }

  /** The cap in micro-dollars; zero or less switches the guard off. */
  datatype SpendGuard = SpendGuard(pricing: Pricing, cap: real)
  {
    predicate Exceeded(u: Usage)
    {
      cap > 0.0 && Cost(u, pricing) as real >= cap
    }
  }

  function After(calls: seq<Call>): Usage
  {
    if calls == [] then Usage(0, 0, 0, 0) else Metered(After(calls[..|calls| - 1]), calls[|calls| - 1])
  }

  /** The sum of one figure over the metered calls. */
  function Total(calls: seq<Call>, figure: Call -> nat): nat
  {
    if calls == [] then 0 else Total(calls[..|calls| - 1], figure) + figure(calls[|calls| - 1])
  }

  const MODEL_CALLS: Call -> nat := (c: Call) => if c.Llm? then 1 else 0
  const SEARCHES: Call -> nat := (c: Call) => if c.Search? then 1 else 0
  const INPUT: Call -> nat := (c: Call) => if c.Llm? && c.input >= 0 then c.input else 0
  const OUTPUT: Call -> nat := (c: Call) => if c.Llm? && c.output >= 0 then c.output else 0

  /** The meter counts the calls of each kind and sums up their tokens, taking negative ones as none. */
  lemma {:induction false} MeterIsTheSum(calls: seq<Call>)
    ensures After(calls).llmCalls == Total(calls, MODEL_CALLS) && After(calls).searchCalls == Total(calls, SEARCHES)
    ensures After(calls).inputTokens == Total(calls, INPUT) && After(calls).outputTokens == Total(calls, OUTPUT)
  {
    if calls != [] {
      MeterIsTheSum(calls[..|calls| - 1]);
    }
  }

  /** The spend in dollars: token rates are per million tokens. */
  function Dollars(u: Usage, p: Pricing): real
  {
    var tokens := u.inputTokens as real * p.inputPerMtok + u.outputTokens as real * p.outputPerMtok;
    tokens / 1_000_000.0 + u.searchCalls as real * p.perCall
  }

  lemma RoundedIsNearest(x: real)
    ensures -0.5 <= Rounded(x) as real - x <= 0.5
    ensures Rounded(x) as real - x in {-0.5, 0.5} ==> Rounded(x) % 2 == 0
  {
  }

  lemma AmountScales(n: nat, rate: real)
    ensures Amount(n, rate * 1_000_000.0) == n as real * rate * 1_000_000.0
  {
  }

  lemma InMicroDollars(input: real, output: real, searches: real)
    ensures ((input + output) / 1_000_000.0 + searches) * 1_000_000.0 == input + output + searches * 1_000_000.0
  {
  }

  lemma ExactCost(u: Usage, p: Pricing)
    ensures Dollars(u, p) * 1_000_000.0
            == Amount(u.inputTokens, p.inputPerMtok) + Amount(u.outputTokens, p.outputPerMtok)
               + Amount(u.searchCalls, p.perCall * 1_000_000.0)
  {
    AmountScales(u.searchCalls, p.perCall);
    InMicroDollars(Amount(u.inputTokens, p.inputPerMtok), Amount(u.outputTokens, p.outputPerMtok),
                   Amount(u.searchCalls, p.perCall));
  }

  /** The cost is the spend in micro-dollars, to the nearest one, halves to the even one. */
  lemma CostIsNearest(u: Usage, p: Pricing)
    ensures var off := Cost(u, p) as real - Dollars(u, p) * 1_000_000.0;
            -0.5 <= off <= 0.5 && (off in {-0.5, 0.5} ==> Cost(u, p) % 2 == 0)
  {
    ExactCost(u, p);
    RoundedIsNearest(Amount(u.inputTokens, p.inputPerMtok) + Amount(u.outputTokens, p.outputPerMtok)
                     + Amount(u.searchCalls, p.perCall * 1_000_000.0));
  }

  lemma NearCap(cost: int, exact: real, cap: int)
    requires -0.5 <= cost as real - exact <= 0.5
    ensures exact >= cap as real ==> cost >= cap
    ensures exact < cap as real - 0.5 ==> cost < cap
  {
  }

  /** The guard trips when the spend reaches the cap, not half a micro-dollar before, and never without a cap. */
  lemma GuardTrips(guard: SpendGuard, u: Usage, cap: int)
    requires guard.cap == cap as real
    ensures cap <= 0 ==> !guard.Exceeded(u)
    ensures cap > 0 && Dollars(u, guard.pricing) * 1_000_000.0 >= cap as real ==> guard.Exceeded(u)
    ensures Dollars(u, guard.pricing) * 1_000_000.0 < cap as real - 0.5 ==> !guard.Exceeded(u)
  {
    CostIsNearest(u, guard.pricing);
    NearCap(Cost(u, guard.pricing), Dollars(u, guard.pricing) * 1_000_000.0, cap);
  }

  lemma RoundedMonotone(x: real, y: real)
    requires x <= y
    ensures Rounded(x) <= Rounded(y)
  {
  }

  lemma AmountGrows(a: nat, b: nat, rate: real)
    requires a <= b && rate >= 0.0
    ensures Amount(a, rate) <= Amount(b, rate)
  {
    var more := (b - a) as real;
    assert b as real == a as real + more && more >= 0.0;
    assert more * rate >= 0.0;
    assert (a as real + more) * rate == a as real * rate + more * rate;
  }

  lemma CostGrows(u: Usage, v: Usage, p: Pricing)
    requires p.NonNegative()
    requires u.inputTokens <= v.inputTokens && u.outputTokens <= v.outputTokens && u.searchCalls <= v.searchCalls
    ensures Cost(u, p) <= Cost(v, p)
  {
    var rate := p.perCall * 1_000_000.0;
    AmountGrows(u.inputTokens, v.inputTokens, p.inputPerMtok);
    AmountGrows(u.outputTokens, v.outputTokens, p.outputPerMtok);
    AmountGrows(u.searchCalls, v.searchCalls, rate);
    SumsGrow(Amount(u.inputTokens, p.inputPerMtok), Amount(u.outputTokens, p.outputPerMtok),
             Amount(u.searchCalls, rate),
             Amount(v.inputTokens, p.inputPerMtok), Amount(v.outputTokens, p.outputPerMtok),
             Amount(v.searchCalls, rate));
  }

  lemma SumsGrow(a: real, b: real, c: real, a': real, b': real, c': real)
    requires a <= a' && b <= b' && c <= c'
    ensures Rounded(a + b + c) <= Rounded(a' + b' + c')
  {
    RoundedMonotone(a + b + c, a' + b' + c');
  }

  lemma {:induction false} UsageGrows(calls: seq<Call>, n: nat)
    requires n <= |calls|
    ensures var u, v := After(calls[..n]), After(calls);
            u.inputTokens <= v.inputTokens && u.outputTokens <= v.outputTokens && u.searchCalls <= v.searchCalls
  {
    if n == |calls| {
      assert calls[..n] == calls;
    } else {
      UsageGrows(calls[..|calls| - 1], n);
      assert calls[..|calls| - 1][..n] == calls[..n];
    }
  }

  /** Once the budget is exceeded it stays exceeded, whatever else is metered. */
  lemma ExceededStays(guard: SpendGuard, calls: seq<Call>, n: nat)
    requires guard.pricing.NonNegative() && n <= |calls| && guard.Exceeded(After(calls[..n]))
    ensures guard.Exceeded(After(calls))
  {
    UsageGrows(calls, n);
    CostGrows(After(calls[..n]), After(calls), guard.pricing);
  }
}
