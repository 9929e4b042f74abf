/** Per-pull queue configuration: which queue rule admitted the pull, how
    wide that queue's train is, and the ordering key derived from the rule
    rank and the user priority. */
module QueueConfig {

  /** A named queue rule: its rank among the rules and its train width
      (`speculative_checks`). */
  datatype QueueRule = QueueRule(name: string, priority: int, speculativeChecks: nat)

  /** The configuration attached to a queued pull request. */
  datatype PullQueueConfig = PullQueueConfig(
    name: string,
    priority: int,
    effectivePriority: int,
    speculativeChecks: nat)

  /** Builds the configuration of a pull queued under `rule` with the user
      priority `priority`; the rule rank is scaled by `offset` so that it
      takes precedence over any user priority below `offset`. */
  function MakeConfig(rule: QueueRule, priority: int, offset: nat): (c: PullQueueConfig)
    ensures c.name == rule.name && c.priority == priority
    ensures c.speculativeChecks == rule.speculativeChecks
    ensures rule.priority == 0 ==> c.effectivePriority == priority
  {
    PullQueueConfig(rule.name, priority, priority + rule.priority * offset, rule.speculativeChecks)
  }

  /** The rule rank dominates: a pull of a higher-ranked rule always sorts
      before a pull of a lower-ranked rule, whatever their user priorities
      in `[0, offset)`. */
  lemma RulePriorityDominates(hi: QueueRule, lo: QueueRule, p: int, q: int, offset: nat)
    requires hi.priority > lo.priority
    requires 0 <= p < offset && 0 <= q < offset
    ensures MakeConfig(hi, p, offset).effectivePriority > MakeConfig(lo, q, offset).effectivePriority
  {
    var d := hi.priority - lo.priority;
    assert d >= 1;
    assert d * offset >= offset by {
      assert d * offset == (d - 1) * offset + offset;
      assert (d - 1) * offset >= 0;
    }
    assert hi.priority * offset == lo.priority * offset + d * offset;
  }

  /** Within one rule, the user priority alone decides the order. */
  lemma SameRuleOrdersByPriority(rule: QueueRule, p: int, q: int, offset: nat)
    ensures MakeConfig(rule, p, offset).effectivePriority < MakeConfig(rule, q, offset).effectivePriority
            <==> p < q
  {
  }
}
