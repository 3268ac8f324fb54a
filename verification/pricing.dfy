/** Token prices of the TypeScript runtime: exact model id, else a listed substring, else the default. */
module Pricing {
  import opened Common

  datatype Price = Price(input: real, output: real)

  /** A result of the runtime's arithmetic. A JSON literal beyond its range is read as an infinity. */
  datatype Number = NaN | Num(value: real) | Infinity | MinusInfinity

  predicate AtLeast(n: Number, bound: real) {
    n.Infinity? || (n.Num? && n.value >= bound)
  }

  /** USD per million tokens, in the order the table is searched. */
  const PRICE_PER_MTOK: seq<(string, Price)> := [
    ("amazon.nova-lite-v1:0", Price(0.06, 0.24)),
    ("amazon.nova-pro-v1:0", Price(0.8, 3.2)),
    ("claude-haiku", Price(1.0, 5.0)),
    ("claude-sonnet", Price(3.0, 15.0)),
    ("gemini-2.5-flash", Price(0.3, 2.5)),
    ("gemini-2.5-pro", Price(1.25, 10.0))
  ]
  const DEFAULT_PRICE := Price(0.5, 1.5)

  /** The names every object literal has from Object.prototype; what it finds under them has no prices. */
  const INHERITED: seq<string> := [
    "constructor", "hasOwnProperty", "isPrototypeOf", "propertyIsEnumerable", "toLocaleString", "toString", "valueOf",
    "__proto__", "__defineGetter__", "__defineSetter__", "__lookupGetter__", "__lookupSetter__"
  ]

  predicate Includes(s: string, part: string) {
    exists i | 0 <= i <= |s| :: part <= s[i..]
  }

  /** A part occurs wherever something stands before and after it, and nowhere else. */
  lemma IncludesAnywhere(s: string, part: string)
    ensures Includes(s, part) <==> exists before, after :: s == before + part + after
  {
    if Includes(s, part) {
      var i :| 0 <= i <= |s| && part <= s[i..];
      assert s == s[..i] + part + s[i..][|part|..];
    }
    if before, after :| s == before + part + after {
      assert s[|before|..] == part + after;
    }
  }

  function FindExact(model: string, table: seq<(string, Price)>): (n: nat)
    ensures n <= |table|
  {
    if table == [] || table[0].0 == model then 0 else 1 + FindExact(model, table[1..])
  }

  function FindIncluded(model: string, table: seq<(string, Price)>): (n: nat)
    ensures n <= |table|
  {
    if table == [] || Includes(model, table[0].0) then 0 else 1 + FindIncluded(model, table[1..])
  }

  predicate Inherited(model: string) {
    model in INHERITED
  }

  /** None where the table's own lookup finds something that is no price. */
  function PriceOf(model: string): Option<Price> {
    var exact := FindExact(model, PRICE_PER_MTOK);
    if exact < |PRICE_PER_MTOK| then Some(PRICE_PER_MTOK[exact].1)
    else if model == "default" then Some(DEFAULT_PRICE)
    else if Inherited(model) then None
    else
      var included := FindIncluded(model, PRICE_PER_MTOK);
      Some(if included < |PRICE_PER_MTOK| then PRICE_PER_MTOK[included].1 else DEFAULT_PRICE)
  }

  /** Token counts are whatever numbers the wire carries. */
  function CostAt(p: Price, inputTokens: real, outputTokens: real): real {
    (inputTokens * p.input + outputTokens * p.output) / 1000000.0
  }

  /** Every price is positive, so an infinite count has an infinite price. */
  function PriceTokensUsd(model: string, inputTokens: real, outputTokens: Number): Number {
    if PriceOf(model).None? then NaN
    else if outputTokens.Num? then Num(CostAt(PriceOf(model).value, inputTokens, outputTokens.value))
    else outputTokens
  }

  /** The first row whose key is the model, if there is one. */
  lemma {:induction false} FirstExact(model: string, table: seq<(string, Price)>, i: nat)
    requires i <= FindExact(model, table) && i < |table|
    ensures table[i].0 == model <==> i == FindExact(model, table)
  {
    if i > 0 {
      FirstExact(model, table[1..], i - 1);
    }
  }

  /** The first row whose key occurs in the model's name, if there is one. */
  lemma {:induction false} FirstIncluded(model: string, table: seq<(string, Price)>, i: nat)
    requires i <= FindIncluded(model, table) && i < |table|
    ensures Includes(model, table[i].0) <==> i == FindIncluded(model, table)
  {
    if i > 0 {
      FirstIncluded(model, table[1..], i - 1);
    }
  }

  lemma InheritedNames(model: string)
    requires Inherited(model)
    ensures 7 <= |model| <= 20 && model[0] != 'd'
  {
    var i :| 0 <= i < |INHERITED| && INHERITED[i] == model;
  }

  lemma PricesArePositive(model: string)
    requires PriceOf(model).Some?
    ensures PriceOf(model).value.input > 0.0 && PriceOf(model).value.output > 0.0
  {
  }

  lemma ScaleUp(x: real, y: real, p: real)
    requires x <= y && 0.0 <= p
    ensures x * p <= y * p
  {
    assert (y - x) * p >= 0.0;
  }

  lemma CostGrows(p: Price, input: real, output: real, inputBound: real, outputBound: real)
    requires p.input >= 0.0 && p.output >= 0.0 && input <= inputBound && output <= outputBound
    ensures CostAt(p, input, output) <= CostAt(p, inputBound, outputBound)
  {
    ScaleUp(input, inputBound, p.input);
    ScaleUp(output, outputBound, p.output);
  }

  /** A million tokens of either kind cost what the table lists, and tokens cost the same in any batches. */
  lemma MillionTokens(p: Price, i: real, o: real, i': real, o': real)
    ensures CostAt(p, 1000000.0, 0.0) == p.input && CostAt(p, 0.0, 1000000.0) == p.output
    ensures CostAt(p, i + i', o + o') == CostAt(p, i, o) + CostAt(p, i', o')
  {
    assert (i + i') * p.input == i * p.input + i' * p.input && (o + o') * p.output == o * p.output + o' * p.output;
  }

  /** The price of a prompt's estimate and an output cap is a worst case: at least nothing, and no split within them costs more. */
  ghost predicate IsWorstCase(model: string, inputBound: nat, outputCap: Number) {
    var worst := PriceTokensUsd(model, inputBound as real, outputCap);
    && AtLeast(worst, 0.0)
    && forall i, o :: 0.0 <= i <= inputBound as real && 0.0 <= o && AtLeast(outputCap, o) ==>
         var cost := PriceTokensUsd(model, i, Num(o));
         cost.Num? && 0.0 <= cost.value && AtLeast(worst, cost.value)
  }

  lemma NonNegativeCost(p: Price, i: real, o: real)
    requires p.input >= 0.0 && p.output >= 0.0 && i >= 0.0 && o >= 0.0
    ensures CostAt(p, i, o) >= 0.0
  {
    CostGrows(p, 0.0, 0.0, i, o);
  }

  lemma WorstCaseHolds(model: string, inputBound: nat, outputCap: Number)
    requires PriceOf(model).Some? && AtLeast(outputCap, 0.0)
    ensures IsWorstCase(model, inputBound, outputCap)
  {
    var p := PriceOf(model).value;
    PricesArePositive(model);
    if outputCap.Num? {
      NonNegativeCost(p, inputBound as real, outputCap.value);
    }
    forall i, o | 0.0 <= i <= inputBound as real && 0.0 <= o && AtLeast(outputCap, o)
      ensures 0.0 <= CostAt(p, i, o) && AtLeast(PriceTokensUsd(model, inputBound as real, outputCap), CostAt(p, i, o))
    {
      NonNegativeCost(p, i, o);
      if outputCap.Num? {
        CostGrows(p, i, o, inputBound as real, outputCap.value);
      }
    }
  }

  lemma NegativeCap(p: Price, outputCap: real)
    requires p.output > 0.0 && outputCap < 0.0
    ensures CostAt(p, 0.0, outputCap) < 0.0
  {
    assert outputCap * p.output < 0.0;
  }

  /** For every prompt it is one exactly when the model has a price and the output cap is at least zero. */
  lemma WorstCaseIsWorst(model: string, outputCap: Number)
    ensures (forall inputBound :: IsWorstCase(model, inputBound, outputCap)) <==> PriceOf(model).Some? && AtLeast(outputCap, 0.0)
    ensures AtLeast(outputCap, 0.0) <==> outputCap == Infinity || exists cap: real :: cap >= 0.0 && outputCap == Num(cap)
  {
    if outputCap.Num? {
      assert outputCap == Num(outputCap.value);
    }
    if PriceOf(model).Some? && AtLeast(outputCap, 0.0) {
      forall inputBound ensures IsWorstCase(model, inputBound, outputCap) {
        WorstCaseHolds(model, inputBound, outputCap);
      }
    } else {
      if PriceOf(model).Some? && outputCap.Num? {
        PricesArePositive(model);
        NegativeCap(PriceOf(model).value, outputCap.value);
      }
      assert !IsWorstCase(model, 0, outputCap);
    }
  }
}
