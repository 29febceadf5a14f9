/** The CommissionRule collection: split percentages per
    (platform, category), unique on that pair.  Rules can be deleted, so
    each carries its own document id, drawn from `nextId`. */
module CommissionRuleModel {
  import opened Wrappers
  import opened Lookup

  datatype CommissionRule = CommissionRule(
    id: nat,
    platform: string,
    category: string,
    brandCommissionRate: real,
    creatorCommissionRate: real)

  /** The compound unique index on (platform, category). */
  ghost predicate UniqueKeys(rules: seq<CommissionRule>) {
    forall i, j :: 0 <= i < j < |rules| ==>
      (rules[i].platform, rules[i].category) != (rules[j].platform, rules[j].category)
  }

  /** The collection invariant.  Note that it says nothing about
      creatorCommissionRate <= brandCommissionRate: the schema does not
      enforce that, only the admin routes check it, and only on the
      values of one request. */
  ghost predicate WellFormed(rules: seq<CommissionRule>, nextId: nat) {
    && (forall i :: 0 <= i < |rules| ==> rules[i].platform != "" && rules[i].category != "")
    && (forall i :: 0 <= i < |rules| ==> rules[i].id < nextId)
    && (forall i, j :: 0 <= i < j < |rules| ==> rules[i].id != rules[j].id)
    && UniqueKeys(rules)
  }

  /** `CommissionRule.findOne({ platform, category })`. */
  function FindRule(rules: seq<CommissionRule>, platform: string, category: string): (r: Option<CommissionRule>)
    ensures r.Some? ==> r.value in rules && r.value.platform == platform && r.value.category == category
    ensures r.None? <==> forall i :: 0 <= i < |rules| ==> (rules[i].platform, rules[i].category) != (platform, category)
  {
    if |rules| == 0 then None
    else if rules[0].platform == platform && rules[0].category == category then Some(rules[0])
    else FindRule(rules[1..], platform, category)
  }

  /** `findById(id)`: the position of the rule with that document id. */
  function FindById(rules: seq<CommissionRule>, id: nat): (r: Option<nat>)
    ensures r.Some? ==> r.value < |rules| && rules[r.value].id == id
    ensures r.None? <==> forall i :: 0 <= i < |rules| ==> rules[i].id != id
  {
    IndexOf(rules, (rule: CommissionRule) => rule.id, id)
  }

  class RuleStore {
    var rules: seq<CommissionRule>
    var nextId: nat

    ghost predicate Valid()
      reads this
    {
      WellFormed(rules, nextId)
    }

    constructor ()
      ensures Valid() && rules == []
    {
      rules := [];
      nextId := 0;
    }
  }
}
