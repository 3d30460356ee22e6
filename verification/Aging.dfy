/** Aging policies, and what re-applying one on every tick does to a priority. */
module Aging {
  import opened Numbers

  datatype Policy = Linear | Logarithmic | Exponential

  datatype Config = Config(policy: Policy, factor: real, maxBoost: real)

  /** The library functions the policies call, of which only these facts matter. */
  datatype Curves = Curves(log1p: real -> real, exp: real -> real)

  ghost predicate Sane(c: Curves) {
    && c.log1p(0.0) == 0.0 && (forall a, b :: 0.0 <= a <= b ==> c.log1p(a) <= c.log1p(b))
    && c.exp(0.0) == 1.0 && (forall a, b :: 0.0 <= a <= b ==> c.exp(a) <= c.exp(b))
  }

  /** The shape of a policy's boost before it is scaled and capped. */
  function Shape(c: Curves, policy: Policy, wait: real): real {
    match policy
    case Linear => wait
    case Logarithmic => c.log1p(wait) * 100.0
    case Exponential => (c.exp(Min(wait, 10.0) / 5.0) - 1.0) * 50.0
  }

  function Scaled(cfg: Config, shape: real): real {
    Min(cfg.factor * shape, cfg.maxBoost)
  }

  function Amount(c: Curves, cfg: Config, wait: real): real {
    Scaled(cfg, Shape(c, cfg.policy, wait))
  }

  /** The priority a policy proposes. */
  function Boost(c: Curves, cfg: Config, wait: real, priority: real): real {
    priority - Amount(c, cfg, wait)
  }

  /** One visit of the aging loop: the proposal is taken if it lowers the priority
      by more than 0.01. */
  function Visit(c: Curves, cfg: Config, wait: real, priority: real): real {
    var proposed := Boost(c, cfg, wait, priority);
    if proposed < priority - 0.01 then proposed else priority
  }

  /** By how much one visit lowers a priority, whatever that priority is. */
  function Drop(c: Curves, cfg: Config, wait: real): real {
    Taken(Amount(c, cfg, wait))
  }

  function Taken(amount: real): real {
    if amount > 0.01 then amount else 0.0
  }

  lemma VisitDrops(c: Curves, cfg: Config, wait: real, priority: real)
    ensures Visit(c, cfg, wait, priority) == priority - Drop(c, cfg, wait)
    ensures Drop(c, cfg, wait) >= 0.0
  {
  }

  // ------------------------------------------------ what each policy lowers by

  /** `drop` is the lesser of the boost and its cap if both are above 0.01, and
      nothing otherwise. */
  predicate IsDrop(drop: real, boost: real, cap: real) {
    if boost > 0.01 && cap > 0.01 then
      (drop == boost || drop == cap) && drop <= boost && drop <= cap
    else drop == 0.0
  }

  /** By how much a visit after `wait` seconds lowers a priority, policy by policy. */
  predicate PolicyDrop(c: Curves, cfg: Config, wait: real, drop: real) {
    match cfg.policy
    case Linear => IsDrop(drop, cfg.factor * wait, cfg.maxBoost)
    case Logarithmic => IsDrop(drop, cfg.factor * c.log1p(wait) * 100.0, cfg.maxBoost)
    case Exponential =>
      if wait <= 10.0 then IsDrop(drop, cfg.factor * (c.exp(wait / 5.0) - 1.0) * 50.0, cfg.maxBoost)
      else IsDrop(drop, cfg.factor * (c.exp(2.0) - 1.0) * 50.0, cfg.maxBoost)
  }

  lemma DropIsPolicys(c: Curves, cfg: Config, wait: real)
    ensures PolicyDrop(c, cfg, wait, Drop(c, cfg, wait))
  {
    match cfg.policy {
      case Linear => TakenIsDrop(cfg.factor * wait, cfg.maxBoost);
      case Logarithmic => LogarithmicDrop(c, cfg, wait);
      case Exponential => ExponentialDrop(c, cfg, wait, if wait <= 10.0 then wait / 5.0 else 2.0);
    }
  }

  lemma LogarithmicDrop(c: Curves, cfg: Config, wait: real)
    requires cfg.policy.Logarithmic?
    ensures IsDrop(Drop(c, cfg, wait), cfg.factor * c.log1p(wait) * 100.0, cfg.maxBoost)
  {
    var boost := cfg.factor * c.log1p(wait) * 100.0;
    assert boost == cfg.factor * (c.log1p(wait) * 100.0) by {
      ProductAssociative(cfg.factor, c.log1p(wait), 100.0);
    }
    ScaledIsDrop(cfg, c.log1p(wait) * 100.0, boost);
  }

  lemma ExponentialDrop(c: Curves, cfg: Config, wait: real, u: real)
    requires cfg.policy.Exponential? && u == if wait <= 10.0 then wait / 5.0 else 2.0
    ensures IsDrop(Drop(c, cfg, wait), cfg.factor * (c.exp(u) - 1.0) * 50.0, cfg.maxBoost)
  {
    assert Min(wait, 10.0) / 5.0 == u;
    var boost := cfg.factor * (c.exp(u) - 1.0) * 50.0;
    assert boost == cfg.factor * ((c.exp(u) - 1.0) * 50.0) by {
      ProductAssociative(cfg.factor, c.exp(u) - 1.0, 50.0);
    }
    ScaledIsDrop(cfg, (c.exp(u) - 1.0) * 50.0, boost);
  }

  lemma ScaledIsDrop(cfg: Config, shape: real, boost: real)
    requires boost == cfg.factor * shape
    ensures IsDrop(Taken(Scaled(cfg, shape)), boost, cfg.maxBoost)
  {
    TakenIsDrop(boost, cfg.maxBoost);
  }

  lemma TakenIsDrop(boost: real, cap: real)
    ensures IsDrop(Taken(Min(boost, cap)), boost, cap)
  {
  }

  lemma BoostEffective(drop: real, boost: real, cap: real)
    requires IsDrop(drop, boost, cap) && cap > 0.01
    ensures drop > 0.0 <==> boost > 0.01
  {
  }

  lemma LogarithmicBoost(c: Curves, cfg: Config, wait: real)
    requires cfg.policy.Logarithmic? && cfg.maxBoost > 0.01
    ensures Drop(c, cfg, wait) > 0.0 <==> cfg.factor * c.log1p(wait) * 100.0 > 0.01
  {
    DropIsPolicys(c, cfg, wait);
    BoostEffective(Drop(c, cfg, wait), cfg.factor * c.log1p(wait) * 100.0, cfg.maxBoost);
  }

  lemma ExponentialBoost(c: Curves, cfg: Config, wait: real, u: real)
    requires cfg.policy.Exponential? && cfg.maxBoost > 0.01 && u == if wait <= 10.0 then wait / 5.0 else 2.0
    ensures Drop(c, cfg, wait) > 0.0 <==> cfg.factor * (c.exp(u) - 1.0) * 50.0 > 0.01
  {
    DropIsPolicys(c, cfg, wait);
    BoostEffective(Drop(c, cfg, wait), cfg.factor * (c.exp(u) - 1.0) * 50.0, cfg.maxBoost);
  }

  /** The threshold of the logarithmic policy: the wait `from` with
      log1p(from) = 0.0001 / factor. */
  lemma LogarithmicEffective(c: Curves, cfg: Config, from: real, wait: real)
    requires cfg.policy.Logarithmic? && Active(cfg) && from >= 0.0 && wait >= 0.0
    requires Increasing(c.log1p) && cfg.factor * c.log1p(from) * 100.0 == 0.01
    ensures Drop(c, cfg, wait) > 0.0 <==> wait > from
  {
    LogarithmicBoost(c, cfg, wait);
    CompareScaled(cfg.factor, 100.0, c.log1p(from), c.log1p(wait));
    assert c.log1p(wait) > c.log1p(from) <==> wait > from;
  }

  /** The threshold of the exponential policy: the wait `from` with
      exp(from / 5) = 1 + 0.0002 / factor; there is none if that is not before 10 s. */
  lemma ExponentialEffective(c: Curves, cfg: Config, from: real, wait: real)
    requires cfg.policy.Exponential? && Active(cfg) && from >= 0.0 && wait >= 0.0
    requires Increasing(c.exp) && cfg.factor * (c.exp(from / 5.0) - 1.0) * 50.0 == 0.01
    ensures Drop(c, cfg, wait) > 0.0 <==> wait > from && from < 10.0
  {
    var u, v := if wait <= 10.0 then wait / 5.0 else 2.0, from / 5.0;
    ExponentialBoost(c, cfg, wait, u);
    CompareScaled(cfg.factor, 50.0, c.exp(v) - 1.0, c.exp(u) - 1.0);
    assert c.exp(u) > c.exp(v) <==> u > v;
  }

  ghost predicate Increasing(f: real -> real) {
    forall a, b :: 0.0 <= a < b ==> f(a) < f(b)
  }

  lemma ShapeMonotone(c: Curves, policy: Policy, young: real, old': real)
    requires Sane(c) && 0.0 <= young <= old'
    ensures 0.0 <= Shape(c, policy, young) <= Shape(c, policy, old')
  {
    match policy {
      case Linear =>
      case Logarithmic =>
        assert c.log1p(0.0) <= c.log1p(young) <= c.log1p(old');
      case Exponential =>
        var a, b := Min(young, 10.0) / 5.0, Min(old', 10.0) / 5.0;
        assert c.exp(0.0) <= c.exp(a) <= c.exp(b);
    }
  }

  lemma TakenMonotone(cfg: Config, a: real, b: real)
    requires 0.0 <= a <= b
    ensures Taken(Scaled(cfg, a)) <= Taken(Scaled(cfg, b))
  {
    var f := cfg.factor;
    if f >= 0.0 {
      ScaleMonotone(f, a, b);
      CapMonotone(f * a, f * b, cfg.maxBoost);
    } else {
      ProductNonPositive(f, a);
      CapMonotone(f * a, f * b, cfg.maxBoost);
    }
  }

  lemma CapMonotone(x: real, y: real, cap: real)
    requires x <= y || x <= 0.0
    ensures Taken(Min(x, cap)) <= Taken(Min(y, cap))
  {
  }

  /** Within one tick an older request drops at least as much as a younger one:
      for every policy and every configuration, negative factors included. */
  lemma OlderDropsMore(c: Curves, cfg: Config, young: real, old': real)
    requires Sane(c) && 0.0 <= young <= old'
    ensures Drop(c, cfg, young) <= Drop(c, cfg, old')
  {
    ShapeMonotone(c, cfg.policy, young, old');
    TakenMonotone(cfg, Shape(c, cfg.policy, young), Shape(c, cfg.policy, old'));
  }

  /** The priority after visits at the given waits, each applied to the result
      of the one before. */
  function Compounded(c: Curves, cfg: Config, priority: real, waits: seq<real>): real {
    if waits == [] then priority else
      Visit(c, cfg, waits[|waits|-1], Compounded(c, cfg, priority, waits[..|waits|-1]))
  }

  function TotalDrop(c: Curves, cfg: Config, waits: seq<real>): real {
    if waits == [] then 0.0 else
      TotalDrop(c, cfg, waits[..|waits|-1]) + Drop(c, cfg, waits[|waits|-1])
  }

  function EffectiveVisits(c: Curves, cfg: Config, waits: seq<real>): nat {
    if waits == [] then 0 else
      EffectiveVisits(c, cfg, waits[..|waits|-1]) + if Amount(c, cfg, waits[|waits|-1]) > 0.01 then 1 else 0
  }

  /** Compounded aging in closed form, and more than 0.01 per effective visit. */
  lemma {:induction false} ClosedForm(c: Curves, cfg: Config, priority: real, waits: seq<real>)
    ensures Compounded(c, cfg, priority, waits) == priority - TotalDrop(c, cfg, waits)
    ensures var n := EffectiveVisits(c, cfg, waits);
            TotalDrop(c, cfg, waits) >= 0.01 * n as real && (n > 0 ==> TotalDrop(c, cfg, waits) > 0.01 * n as real)
    decreases |waits|
  {
    if waits != [] {
      ClosedForm(c, cfg, priority, waits[..|waits|-1]);
      VisitDrops(c, cfg, waits[|waits|-1], Compounded(c, cfg, priority, waits[..|waits|-1]));
    }
  }

  /** Does a linear policy ever lower a priority? */
  predicate Active(cfg: Config) {
    cfg.factor > 0.0 && cfg.maxBoost > 0.01
  }

  /** The wait from which a linear policy is effective. */
  function EffectiveFrom(cfg: Config): real
    requires Active(cfg)
  {
    0.01 / cfg.factor
  }

  lemma LinearEffective(c: Curves, cfg: Config, wait: real)
    requires cfg.policy.Linear? && Active(cfg)
    ensures Amount(c, cfg, wait) > 0.01 <==> wait > EffectiveFrom(cfg)
  {
    var w := EffectiveFrom(cfg);
    assert cfg.factor * w == 0.01;
    if wait > w {
      assert cfg.factor * (wait - w) > 0.0;
    } else {
      assert cfg.factor * (w - wait) >= 0.0;
    }
  }

  /** For every policy, once a wait is long enough for an effect every longer one is. */
  lemma {:induction false} LateVisitsCount(c: Curves, cfg: Config, from: real, waits: seq<real>)
    requires Sane(c) && from >= 0.0 && Drop(c, cfg, from) > 0.0
    requires forall i :: 0 <= i < |waits| ==> waits[i] >= from
    ensures EffectiveVisits(c, cfg, waits) == |waits|
    decreases |waits|
  {
    if waits != [] {
      LateVisitsCount(c, cfg, from, waits[..|waits|-1]);
      OlderDropsMore(c, cfg, from, waits[|waits|-1]);
    }
  }

  lemma {:induction false} AllEffective(c: Curves, cfg: Config, waits: seq<real>)
    requires cfg.policy.Linear? && Active(cfg)
    requires forall i :: 0 <= i < |waits| ==> waits[i] > EffectiveFrom(cfg)
    ensures EffectiveVisits(c, cfg, waits) == |waits|
    decreases |waits|
  {
    if waits != [] {
      AllEffective(c, cfg, waits[..|waits|-1]);
      LinearEffective(c, cfg, waits[|waits|-1]);
    }
  }

  lemma {:induction false} InertWhenInactive(c: Curves, cfg: Config, waits: seq<real>)
    requires cfg.policy.Linear? && !Active(cfg)
    requires forall i :: 0 <= i < |waits| ==> waits[i] >= 0.0
    ensures TotalDrop(c, cfg, waits) == 0.0
    decreases |waits|
  {
    if waits != [] {
      InertWhenInactive(c, cfg, waits[..|waits|-1]);
      var w := waits[|waits|-1];
      if cfg.factor <= 0.0 {
        ProductNonPositive(cfg.factor, w);
      }
    }
  }

  /** The explicit bound: a linear policy takes a priority below any threshold
      within 100 visits per unit of distance once the request has waited
      0.01 / factor seconds; and it lowers a priority at all only if it is active. */
  lemma LinearReaches(c: Curves, cfg: Config, priority: real, threshold: real, waits: seq<real>)
    requires cfg.policy.Linear? && threshold < priority
    requires forall i :: 0 <= i < |waits| ==> waits[i] >= 0.0
    ensures Active(cfg) && (forall i :: 0 <= i < |waits| ==> waits[i] > EffectiveFrom(cfg))
            && |waits| as real >= 100.0 * (priority - threshold)
            ==> Compounded(c, cfg, priority, waits) < threshold
    ensures Compounded(c, cfg, priority, waits) < priority ==> Active(cfg)
  {
    ClosedForm(c, cfg, priority, waits);
    if !Active(cfg) {
      InertWhenInactive(c, cfg, waits);
    } else if forall i :: 0 <= i < |waits| ==> waits[i] > EffectiveFrom(cfg) {
      AllEffective(c, cfg, waits);
    }
  }
}
