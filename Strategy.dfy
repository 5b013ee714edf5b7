/**
 * The strategy classifier (src/bot/strategy/strategy_manager.py).
 *
 * `Classify` is the first-match-wins chain of six guarded rules and a
 * default; `RuleTable` and `FirstMatch` state the same chain as data, and the
 * lemmas below relate the two and derive the per-rule consequences.
 *
 * The supply thresholds `used < cap * 0.7` and `used < cap * 0.9` are kept
 * exact in integers as `10 * used < 7 * cap` and `10 * used < 9 * cap`.
 */
module Strategy {
  import opened Intel

  datatype Mode = Eco | Army | Defend | AllIn | Expand
  datatype TechFocus = Ground | AntiAir | Mixed
  datatype Priority = Economy | Production | Defense | Offense

  /** The immutable decision value; every component ranges over a closed set. */
  datatype StrategyDecision = StrategyDecision(mode: Mode, techFocus: TechFocus, priority: Priority)

  const DefendRush := StrategyDecision(Defend, Ground, Defense)
  const AntiAirArmy := StrategyDecision(Army, AntiAir, Defense)
  const EcoGround := StrategyDecision(Eco, Ground, Economy)
  const ExpandGround := StrategyDecision(Expand, Ground, Economy)
  const MixedArmy := StrategyDecision(Army, Mixed, Production)
  const AllInPush := StrategyDecision(AllIn, Mixed, Offense)

  /** `used < cap * tenths / 10`, without rounding. */
  predicate BelowShare(used: int, cap: int, tenths: int) {
    10 * used < tenths * cap
  }

  /** Rule 1: the enemy is rushing. */
  predicate RushGuard(f: IntelFacts) {
    f.enemyRush
  }

  /** Rule 2: enemy air and a small army. */
  predicate AirGuard(f: IntelFacts) {
    f.enemyAir && f.ourArmySize < 20
  }

  /** Rule 3: low minerals on a single base. */
  predicate LowEconomyGuard(f: IntelFacts) {
    f.ourMinerals < 100 && f.ourBaseCount < 2
  }

  /** Rule 4: rich, fewer than three bases, under 70% supply. */
  predicate ExpandGuard(f: IntelFacts) {
    f.ourMinerals >= 300 && f.ourBaseCount < 3 && BelowShare(f.ourSupplyUsed, f.ourSupplyCap, 7)
  }

  /** Rule 5: rich and under 90% supply. */
  predicate ArmyGuard(f: IntelFacts) {
    f.ourMinerals >= 300 && BelowShare(f.ourSupplyUsed, f.ourSupplyCap, 9)
  }

  /** Rule 6: a big army at 90% supply or more. */
  predicate AllInGuard(f: IntelFacts) {
    f.ourArmySize > 50 && !BelowShare(f.ourSupplyUsed, f.ourSupplyCap, 9)
  }

  /**
   * `StrategyManager.decide` on the facts `f`. Each output is characterised by
   * the guards that must fail before it and the one that must hold for it.
   */
  function Classify(f: IntelFacts): (d: StrategyDecision)
    ensures d.mode == Defend <==> RushGuard(f)
    ensures d.techFocus == AntiAir <==> !RushGuard(f) && AirGuard(f)
    ensures d.mode == Expand <==> !RushGuard(f) && !AirGuard(f) && !LowEconomyGuard(f) && ExpandGuard(f)
    ensures d == MixedArmy <==>
      !RushGuard(f) && !AirGuard(f) && !LowEconomyGuard(f) && !ExpandGuard(f) && ArmyGuard(f)
    ensures d.mode == AllIn <==>
      !RushGuard(f) && !AirGuard(f) && !LowEconomyGuard(f) && !ExpandGuard(f) && !ArmyGuard(f) && AllInGuard(f)
    ensures d.mode == Eco ==> d == EcoGround
  {
    if RushGuard(f) then DefendRush
    else if AirGuard(f) then AntiAirArmy
    else if LowEconomyGuard(f) then EcoGround
    else if ExpandGuard(f) then ExpandGround
    else if ArmyGuard(f) then MixedArmy
    else if AllInGuard(f) then AllInPush
    else EcoGround
  }

  /** One rule of the chain, as data. */
  datatype Rule = Rule(guard: IntelFacts -> bool, decision: StrategyDecision)

  /** The six rules in the order `decide` tests them. */
  function RuleTable(): (rules: seq<Rule>)
    ensures |rules| == 6
  {
    [ Rule(RushGuard, DefendRush),
      Rule(AirGuard, AntiAirArmy),
      Rule(LowEconomyGuard, EcoGround),
      Rule(ExpandGuard, ExpandGround),
      Rule(ArmyGuard, MixedArmy),
      Rule(AllInGuard, AllInPush) ]
  }

  /** Generic first-match evaluation of a rule list with a fallback. */
  function FirstMatch(rules: seq<Rule>, f: IntelFacts, fallback: StrategyDecision): StrategyDecision {
    if |rules| == 0 then fallback
    else if rules[0].guard(f) then rules[0].decision
    else FirstMatch(rules[1..], f, fallback)
  }

  /** The rule that fires is the first one whose guard holds. */
  lemma {:induction false} FirstMatchWins(rules: seq<Rule>, f: IntelFacts, fallback: StrategyDecision, k: nat)
    requires k < |rules| && rules[k].guard(f)
    requires forall j :: 0 <= j < k ==> !rules[j].guard(f)
    ensures FirstMatch(rules, f, fallback) == rules[k].decision
  {
    if k > 0 {
      FirstMatchWins(rules[1..], f, fallback, k - 1);
    }
  }

  /** When no guard holds, the fallback is returned. */
  lemma {:induction false} FirstMatchFallback(rules: seq<Rule>, f: IntelFacts, fallback: StrategyDecision)
    requires forall j :: 0 <= j < |rules| ==> !rules[j].guard(f)
    ensures FirstMatch(rules, f, fallback) == fallback
  {
    if |rules| > 0 {
      FirstMatchFallback(rules[1..], f, fallback);
    }
  }

  /** `Classify` is the table-driven chain with the eco/ground/economy default. */
  lemma ClassifyIsFirstMatch(f: IntelFacts)
    ensures Classify(f) == FirstMatch(RuleTable(), f, EcoGround)
  {
    var rules := RuleTable();
    if RushGuard(f) {
      FirstMatchWins(rules, f, EcoGround, 0);
    } else if AirGuard(f) {
      FirstMatchWins(rules, f, EcoGround, 1);
    } else if LowEconomyGuard(f) {
      FirstMatchWins(rules, f, EcoGround, 2);
    } else if ExpandGuard(f) {
      FirstMatchWins(rules, f, EcoGround, 3);
    } else if ArmyGuard(f) {
      FirstMatchWins(rules, f, EcoGround, 4);
    } else if AllInGuard(f) {
      FirstMatchWins(rules, f, EcoGround, 5);
    } else {
      FirstMatchFallback(rules, f, EcoGround);
    }
  }

  /**
   * First match wins: when rule `k` fires on `f`, any `g` on which rules
   * `0..k` give the same verdicts gets the same decision, whatever the fields
   * that only later rules read.
   */
  lemma LaterRulesIrrelevant(f: IntelFacts, g: IntelFacts, k: nat)
    requires k < 6 && RuleTable()[k].guard(f)
    requires forall j :: 0 <= j <= k ==> RuleTable()[j].guard(g) == RuleTable()[j].guard(f)
    requires forall j :: 0 <= j < k ==> !RuleTable()[j].guard(f)
    ensures Classify(g) == Classify(f) == RuleTable()[k].decision
  {
    ClassifyIsFirstMatch(f);
    ClassifyIsFirstMatch(g);
    FirstMatchWins(RuleTable(), f, EcoGround, k);
    FirstMatchWins(RuleTable(), g, EcoGround, k);
  }

  /** A rush is answered by ground defence whatever the other facts say. */
  lemma RushDominates(f: IntelFacts)
    requires f.enemyRush
    ensures Classify(f) == DefendRush
  {
  }

  /** Not rushed, enemy air and fewer than 20 army units: anti-air defence. */
  lemma AirBelowTwenty(f: IntelFacts)
    requires !f.enemyRush && f.enemyAir && f.ourArmySize < 20
    ensures Classify(f) == AntiAirArmy
  {
  }

  /** Expanding needs minerals, fewer than three bases and supply under 70%. */
  lemma ExpandNeeds(f: IntelFacts)
    requires Classify(f).mode == Expand
    ensures f.ourMinerals >= 300 && f.ourBaseCount < 3 && 10 * f.ourSupplyUsed < 7 * f.ourSupplyCap
  {
  }

  /** The mixed army needs minerals and supply under 90%. */
  lemma MixedArmyNeeds(f: IntelFacts)
    requires Classify(f) == MixedArmy
    ensures f.ourMinerals >= 300 && 10 * f.ourSupplyUsed < 9 * f.ourSupplyCap
  {
  }

  /** All-in only with more than 50 army units at 90% supply or more. */
  lemma AllInNeeds(f: IntelFacts)
    requires Classify(f).mode == AllIn
    ensures f.ourArmySize > 50 && 10 * f.ourSupplyUsed >= 9 * f.ourSupplyCap
  {
  }

  /** With no supply cap, neither expanding nor the mixed army can be chosen. */
  lemma ZeroCapBlocksGrowth(f: IntelFacts)
    requires f.ourSupplyCap == 0 && f.ourSupplyUsed >= 0
    ensures Classify(f).mode != Expand && Classify(f) != MixedArmy
  {
  }

  /**
   * The default output equals rule 3's: two different paths, one value. Both
   * the low-economy case and the no-rule-fires case are reachable.
   */
  lemma DefaultEqualsLowEconomy()
    ensures var low := DefaultFacts().(ourMinerals := 50);
      LowEconomyGuard(low) && Classify(low) == EcoGround
    ensures var idle := DefaultFacts().(ourMinerals := 200);
      (forall j :: 0 <= j < 6 ==> !RuleTable()[j].guard(idle)) && Classify(idle) == EcoGround
  {
  }

  /** Reads the facts of its blackboard and classifies them; it writes nothing. */
  class StrategyManager {
    const intel: IntelManager

    constructor (intel: IntelManager)
      ensures this.intel == intel
    {
      this.intel := intel;
    }

    /** The blackboard's current facts (the `facts` property). */
    function Facts(): (f: IntelFacts)
      reads intel
      ensures f == intel.facts
    {
      intel.facts
    }

    /** `decide`: the rule chain applied to the current facts. */
    function Decide(): (d: StrategyDecision)
      reads intel
      ensures d == Classify(intel.facts)
    {
      Classify(Facts())
    }
  }
}
