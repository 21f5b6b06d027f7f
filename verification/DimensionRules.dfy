/** The per-dimension rule table of src/more_dimensions/dim/DimensionRules.cpp. */
module DimensionRules {
  import opened Machine
  import opened PlotGeometry

  const DIM_RULE_COUNT := 13
  const PISTON_PUSH := 7
  const PISTON_CROSS_PLOT := 11
  const ENTITY_CROSS_PLOT := 12

  /** The explicitly set rules and how many of them each dimension has. */
  datatype RuleTable = RuleTable(rules: map<uint64, bool>, dimCounts: map<int32, int>)

  /** `key(dimension, rule)` packs like a plot key. */
  function RuleKey(dim: int32, rule: int32): uint64 {
    Pk(dim, rule)
  }

  ghost function RulesOf(t: RuleTable, dim: int32): set<int> {
    set r | -0x8000_0000 <= r < 0x8000_0000 && RuleKey(dim, r) in t.rules
  }

  function Count(t: RuleTable, dim: int32): int {
    if dim in t.dimCounts then t.dimCounts[dim] else 0
  }

  /** The count of a dimension is the number of rules set for it. */
  ghost predicate CountExact(t: RuleTable, dim: int32) {
    Count(t, dim) == |RulesOf(t, dim)|
  }

  function AfterSet(t: RuleTable, dim: int32, rule: int32, allow: bool): RuleTable {
    var k := RuleKey(dim, rule);
    RuleTable(t.rules[k := allow], if k in t.rules then t.dimCounts else t.dimCounts[dim := Count(t, dim) + 1])
  }

  function AfterClear(t: RuleTable, dim: int32): RuleTable {
    RuleTable(t.rules - set r | 0 <= r < DIM_RULE_COUNT :: RuleKey(dim, r), t.dimCounts - {dim})
  }

  function Rule(t: RuleTable, dim: int32, rule: int32): Option<bool> {
    var k := RuleKey(dim, rule);
    if k in t.rules then Some(t.rules[k]) else None
  }

  lemma RuleKeyInjective(d1: int32, r1: int32, d2: int32, r2: int32)
    requires RuleKey(d1, r1) == RuleKey(d2, r2)
    ensures d1 == d2 && r1 == r2
  {
    KeyInjective(PlotXZ(d1, r1), PlotXZ(d2, r2));
  }

  /** The rule that was set reads as it was set, and no other rule changes. */
  lemma SetThenRead(t: RuleTable, dim: int32, rule: int32, allow: bool, other: int32, r: int32)
    ensures Rule(AfterSet(t, dim, rule, allow), other, r)
         == if other == dim && r == rule then Some(allow) else Rule(t, other, r)
  {
    if RuleKey(other, r) == RuleKey(dim, rule) {
      RuleKeyInjective(other, r, dim, rule);
    }
  }

  /** Setting any rule, known number or not, keeps every count exact. */
  lemma SetKeepsCounts(t: RuleTable, dim: int32, rule: int32, allow: bool, other: int32)
    requires CountExact(t, other)
    ensures CountExact(AfterSet(t, dim, rule, allow), other)
  {
    var t' := AfterSet(t, dim, rule, allow);
    forall r: int32
      ensures RuleKey(other, r) in t'.rules <==> RuleKey(other, r) in t.rules || (other == dim && r == rule)
    {
      if RuleKey(other, r) == RuleKey(dim, rule) {
        RuleKeyInjective(other, r, dim, rule);
      }
    }
    if other == dim && RuleKey(dim, rule) !in t.rules {
      assert RulesOf(t', dim) == RulesOf(t, dim) + {rule};
    } else {
      assert RulesOf(t', other) == RulesOf(t, other);
    }
  }

  /** Clearing forgets the rules numbered 0..12 of the dimension and no other rule. */
  lemma ClearRemoves(t: RuleTable, dim: int32, other: int32, rule: int32)
    ensures Rule(AfterClear(t, dim), other, rule)
         == if other == dim && 0 <= rule < DIM_RULE_COUNT then None else Rule(t, other, rule)
  {}

  /** Clearing leaves the count exact if and only if no rule number outside 0..12 was set there. */
  lemma ClearKeepsCountIff(t: RuleTable, dim: int32)
    ensures CountExact(AfterClear(t, dim), dim) <==> forall r :: r in RulesOf(t, dim) ==> 0 <= r < DIM_RULE_COUNT
  {
    var t' := AfterClear(t, dim);
    forall r | -0x8000_0000 <= r < 0x8000_0000
      ensures r in RulesOf(t', dim) <==> r in RulesOf(t, dim) && !(0 <= r < DIM_RULE_COUNT)
    {
      ClearRemoves(t, dim, dim, r);
    }
    assert CountExact(t', dim) <==> RulesOf(t', dim) == {};
    if RulesOf(t', dim) != {} {
      var r :| r in RulesOf(t', dim);
      assert r in RulesOf(t, dim);
    }
  }

  /** The stale case: rule 13 set, dimension cleared, rule 13 set again; the dimension then looks unmanaged. */
  lemma ClearForgetsUnknownRule(dim: int32)
    ensures var t := AfterSet(AfterClear(AfterSet(RuleTable(map[], map[]), dim, 13, false), dim), dim, 13, false);
            Rule(t, dim, 13) == Some(false) && Count(t, dim) == 0
  {
    ClearRemoves(AfterSet(RuleTable(map[], map[]), dim, 13, false), dim, dim, 13);
  }

  class RuleStore {
    var rules: map<uint64, bool>
    var dimCounts: map<int32, int>

    function AsTable(): RuleTable
      reads this
    {
      RuleTable(rules, dimCounts)
    }

    constructor ()
      ensures AsTable() == RuleTable(map[], map[])
    {
      rules, dimCounts := map[], map[];
    }

    method AnyRuleFor(dim: int32) returns (any: bool)
      ensures any == (Count(AsTable(), dim) > 0)
      ensures CountExact(AsTable(), dim) ==> any == exists r: int32 :: Rule(AsTable(), dim, r).Some?
    {
      any := dim in dimCounts && dimCounts[dim] > 0;
      ghost var s := RulesOf(AsTable(), dim);
      if s != {} {
        ghost var r :| r in s;
        assert Rule(AsTable(), dim, r).Some?;
      } else {
        assert forall r: int32 :: Rule(AsTable(), dim, r).Some? ==> r in s;
      }
    }

    method SetDimensionRule(dim: int32, rule: int32, allow: bool)
      modifies this
      ensures AsTable() == AfterSet(old(AsTable()), dim, rule, allow)
    {
      var k := RuleKey(dim, rule);
      var inserted := k !in rules;
      rules := rules[k := allow];
      if inserted {
        dimCounts := dimCounts[dim := (if dim in dimCounts then dimCounts[dim] else 0) + 1];
      }
    }

    method GetDimensionRule(dim: int32, rule: int32) returns (r: Option<bool>)
      ensures r == Rule(AsTable(), dim, rule)
    {
      var k := RuleKey(dim, rule);
      if k !in rules { return None; }
      return Some(rules[k]);
    }

    method ClearDimensionRules(dim: int32)
      modifies this
      ensures AsTable() == AfterClear(old(AsTable()), dim)
    {
      for r := 0 to DIM_RULE_COUNT
        invariant dimCounts == old(dimCounts)
        invariant rules == old(rules) - set q | 0 <= q < r :: RuleKey(dim, q)
      {
        rules := rules - {RuleKey(dim, r)};
        assert (set q | 0 <= q < r + 1 :: RuleKey(dim, q))
            == (set q | 0 <= q < r :: RuleKey(dim, q)) + {RuleKey(dim, r)};
      }
      dimCounts := dimCounts - {dim};
    }

    /** An unset rule allows. */
    method Allowed(dim: int32, rule: int32) returns (r: bool)
      ensures r == (Rule(AsTable(), dim, rule) != Some(false))
    {
      var v := GetDimensionRule(dim, rule);
      r := if v.Some? then v.value else true;
    }
  }
}
