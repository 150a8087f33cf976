/** The order in which a playbook run acts, and what it never undoes. */
module PlaybookOrder {
  import opened Prelude
  import opened Playbooks
  import opened PlaybookRuns

  predicate NonTerminal(row: Row) { row.status.Running? || row.status.RetryScheduled? || row.status.AwaitingAck? }

  /** Any number of overlapping sessions: rows are a plan prefix, so at most the last action is unfinished. */
  lemma RowsArePlanPrefix(plan: seq<Kind>, steps: seq<Step>)
    ensures var rows := Run(Start(plan), steps).rows;
            PlanPrefix(plan, rows)
            && forall i, j :: i in rows && j in rows && NonTerminal(rows[i]) && NonTerminal(rows[j]) ==> i == j
  {
    ReachableInv(plan, steps);
  }

  /** A webhook is called only when every earlier action of the plan has succeeded and stays so. */
  lemma CallsFollowThePlan(plan: seq<Kind>, steps: seq<Step>, a: nat, outcome: Outcome)
    requires Call(Run(Start(plan), steps), a, outcome) != Run(Start(plan), steps)
    ensures var s := Run(Start(plan), steps);
            s.sessions[a].Deliver? && Done(s.rows, s.sessions[a].i)
            && Token(s.sessions[a].i, s.sessions[a].attempt) !in s.calls
  {
    ReachableInv(plan, steps);
    var s := Run(Start(plan), steps);
    assert SessionOk(s.plan, s.rows, s.calls, a, s.sessions[a]);
  }

  ghost predicate Extends(s: Sys, s': Sys) {
    && s.calls <= s'.calls && s.rows.Keys <= s'.rows.Keys
    && forall i: nat :: i in s.rows ==>
         && s'.rows[i].kind == s.rows[i].kind && s.rows[i].attempt <= s'.rows[i].attempt
         && (s.rows[i].status.Succeeded? ==> s'.rows[i] == s.rows[i])
  }

  lemma NextExtends(s: Sys, step: Step)
    ensures Extends(s, Next(s, step))
  {}

  /** Rows and calls are never lost, and a succeeded action is never touched again. */
  lemma {:induction false} SucceededForever(plan: seq<Kind>, steps: seq<Step>, more: seq<Step>)
    ensures Extends(Run(Start(plan), steps), Run(Run(Start(plan), steps), more))
    decreases |more|
  {
    if more != [] {
      var s := Run(Start(plan), steps);
      var n := |more| - 1;
      SucceededForever(plan, steps, more[..n]);
      NextExtends(Run(s, more[..n]), more[n]);
    }
  }
}
