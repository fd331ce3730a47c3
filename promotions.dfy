/**
 * The promotion chain: a base order cost wrapped by any number of
 * percentage-off and flat-off decorators. Each node yields a total cost
 * and a description trail.
 */
module Promotions {

  /** BaseOrderCost | PercentageDiscount | FlatDiscount. */
  datatype CostNode =
    | Base(total: real)
    | Pct(inner: CostNode, percent: real)
    | Flat(inner: CostNode, amount: real)

  /** One decorator's rule, detached from the node it wraps. */
  datatype Adjustment = PercentOff(percent: real) | FlatOff(amount: real)

  /** Math.max on two amounts. */
  function Max(a: real, b: real): real
  {
    if a >= b then a else b
  }

  /** The amount a single rule makes of the amount it wraps. */
  function ApplyRule(amount: real, rule: Adjustment): real
  {
    match rule
    case PercentOff(p) => amount * (1.0 - p / 100.0)
    case FlatOff(a) => Max(0.0, amount - a)
  }

  /** getTotalCost, down the chain. */
  function Cost(c: CostNode): real
  {
    match c
    case Base(t) => t
    case Pct(inner, p) => Cost(inner) * (1.0 - p / 100.0)
    case Flat(inner, a) => Max(0.0, Cost(inner) - a)
  }

  /** The text a rule appends to the description of what it wraps;
      `show` renders a number as Java's Double.toString does. */
  function Suffix(rule: Adjustment, show: real -> string): string
  {
    match rule
    case PercentOff(p) => " + Applied " + show(p) + "% Discount"
    case FlatOff(a) => " + Applied Flat $" + show(a) + " Off"
  }

  /** getDescription, down the chain. */
  function Description(c: CostNode, show: real -> string): string
  {
    match c
    case Base(_) => "Subtotal"
    case Pct(inner, p) => Description(inner, show) + Suffix(PercentOff(p), show)
    case Flat(inner, a) => Description(inner, show) + Suffix(FlatOff(a), show)
  }

  /** The amount held by the innermost node. */
  function BaseTotal(c: CostNode): real
  {
    match c
    case Base(t) => t
    case Pct(inner, _) => BaseTotal(inner)
    case Flat(inner, _) => BaseTotal(inner)
  }

  /** The chain's rules in the order they were applied, innermost first. */
  function Adjustments(c: CostNode): seq<Adjustment>
  {
    match c
    case Base(_) => []
    case Pct(inner, p) => Adjustments(inner) + [PercentOff(p)]
    case Flat(inner, a) => Adjustments(inner) + [FlatOff(a)]
  }

  /** Wraps a node in the decorator for one rule. */
  function Decorate(c: CostNode, rule: Adjustment): CostNode
  {
    match rule
    case PercentOff(p) => Pct(c, p)
    case FlatOff(a) => Flat(c, a)
  }

  /** Builds a chain from a base amount and rules applied left to right. */
  function Build(total: real, rules: seq<Adjustment>): CostNode
  {
    if rules == [] then Base(total) else Decorate(Build(total, rules[..|rules| - 1]), rules[|rules| - 1])
  }

  /** Reference semantics: rules folded left to right over an accumulator. */
  function ApplyAll(amount: real, rules: seq<Adjustment>): real
  {
    if rules == [] then amount else ApplyRule(ApplyAll(amount, rules[..|rules| - 1]), rules[|rules| - 1])
  }

  /** The suffixes of the rules, concatenated in application order. */
  function Trail(rules: seq<Adjustment>, show: real -> string): string
  {
    if rules == [] then "" else Trail(rules[..|rules| - 1], show) + Suffix(rules[|rules| - 1], show)
  }

  /** Every chain is the one built from its base amount and its rules. */
  lemma {:induction false} BuildFromParts(c: CostNode)
    ensures Build(BaseTotal(c), Adjustments(c)) == c
  {
    match c
    case Base(_) =>
    case Pct(inner, p) =>
      BuildFromParts(inner);
      assert (Adjustments(inner) + [PercentOff(p)])[..|Adjustments(c)| - 1] == Adjustments(inner);
    case Flat(inner, a) =>
      BuildFromParts(inner);
      assert (Adjustments(inner) + [FlatOff(a)])[..|Adjustments(c)| - 1] == Adjustments(inner);
  }

  /** Building a chain keeps its base amount and its rules, in order. */
  lemma {:induction false} PartsOfBuild(total: real, rules: seq<Adjustment>)
    ensures BaseTotal(Build(total, rules)) == total
    ensures Adjustments(Build(total, rules)) == rules
  {
    if rules != [] {
      var n := |rules| - 1;
      var inner := Build(total, rules[..n]);
      PartsOfBuild(total, rules[..n]);
      DecorateParts(inner, rules[n]);
      assert rules == rules[..n] + [rules[n]];
    }
  }

  /** Decorating keeps the base amount and appends the rule. */
  lemma DecorateParts(c: CostNode, rule: Adjustment)
    ensures BaseTotal(Decorate(c, rule)) == BaseTotal(c)
    ensures Adjustments(Decorate(c, rule)) == Adjustments(c) + [rule]
  {
  }

  /** The decorator chain costs what folding its rules over its base amount gives. */
  lemma {:induction false} CostIsFold(c: CostNode)
    ensures Cost(c) == ApplyAll(BaseTotal(c), Adjustments(c))
  {
    match c
    case Base(_) =>
    case Pct(inner, p) =>
      CostIsFold(inner);
      assert (Adjustments(inner) + [PercentOff(p)])[..|Adjustments(c)| - 1] == Adjustments(inner);
    case Flat(inner, a) =>
      CostIsFold(inner);
      assert (Adjustments(inner) + [FlatOff(a)])[..|Adjustments(c)| - 1] == Adjustments(inner);
  }

  /** A description is "Subtotal" followed by each rule's suffix in application order. */
  lemma {:induction false} DescriptionIsTrail(c: CostNode, show: real -> string)
    ensures Description(c, show) == "Subtotal" + Trail(Adjustments(c), show)
  {
    if !c.Base? {
      var rule := RuleOf(c);
      var rules := Adjustments(c.inner);
      assert (rules + [rule])[..|rules|] == rules;
      TrailStep(rules, rule, show);
      DescriptionIsTrail(c.inner, show);
    }
  }

  /** The rule of a decorator node. */
  function RuleOf(c: CostNode): (r: Adjustment)
    requires !c.Base?
    ensures Decorate(c.inner, r) == c
  {
    if c.Pct? then PercentOff(c.percent) else FlatOff(c.amount)
  }

  lemma TrailStep(rules: seq<Adjustment>, rule: Adjustment, show: real -> string)
    ensures Trail(rules + [rule], show) == Trail(rules, show) + Suffix(rule, show)
  {
    assert (rules + [rule])[..|rules|] == rules;
  }

  /** A decorator's description extends the description of what it wraps by its own suffix. */
  lemma InnerDescriptionIsPrefix(c: CostNode, show: real -> string)
    requires !c.Base?
    ensures Description(c.inner, show) <= Description(c, show)
    ensures Description(c, show)[|Description(c.inner, show)|..] == Suffix(RuleOf(c), show)
  {
  }

  /** PercentageDiscount: with a non-negative inner cost and a percentage in [0,100],
      the cost lies between 0 and the inner cost. */
  lemma PercentageWithinInner(c: CostNode)
    requires c.Pct? && Cost(c.inner) >= 0.0 && 0.0 <= c.percent <= 100.0
    ensures 0.0 <= Cost(c) <= Cost(c.inner)
  {
    var x, f := Cost(c.inner), 1.0 - c.percent / 100.0;
    assert 0.0 <= f <= 1.0;
    assert x * f <= x * 1.0;
  }

  /** FlatDiscount: the cost is never negative, and with a non-negative amount
      never above the inner cost; it is the inner cost less the amount unless that is negative. */
  lemma FlatWithinInner(c: CostNode)
    requires c.Flat?
    ensures Cost(c) >= 0.0
    ensures c.amount >= 0.0 && Cost(c.inner) >= 0.0 ==> Cost(c) <= Cost(c.inner)
    ensures Cost(c) == if Cost(c.inner) - c.amount >= 0.0 then Cost(c.inner) - c.amount else 0.0
  {
  }

  /** Every percentage of a chain lies in [0,100] and every flat amount is non-negative. */
  predicate WellFormed(c: CostNode)
  {
    match c
    case Base(_) => true
    case Pct(inner, p) => 0.0 <= p <= 100.0 && WellFormed(inner)
    case Flat(inner, a) => a >= 0.0 && WellFormed(inner)
  }

  /** A well-formed chain over a non-negative base never goes negative and never costs more than its base. */
  lemma {:induction false} ChainWithinBase(c: CostNode)
    requires WellFormed(c) && BaseTotal(c) >= 0.0
    ensures 0.0 <= Cost(c) <= BaseTotal(c)
  {
    match c
    case Base(_) =>
    case Pct(inner, _) =>
      ChainWithinBase(inner);
      PercentageWithinInner(c);
    case Flat(inner, _) =>
      ChainWithinBase(inner);
      FlatWithinInner(c);
  }

  /** Base 100 with 10% off costs 90; base 30 with 50 flat off costs 0, not -20. */
  lemma DiscountExamples()
    ensures Cost(Pct(Base(100.0), 10.0)) == 90.0
    ensures Cost(Flat(Base(30.0), 50.0)) == 0.0
  {
  }
}
