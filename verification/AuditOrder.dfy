/** What a passing audit says about the order of the story. */
module AuditOrder {
  import opened AuditSpec

  /** A checked event with ID `from` names `to` as a prerequisite. */
  predicate Edge(input: Input, from: string, to: string) {
    exists i | 0 <= i < |input.events| ::
      input.events[i].id == from && Checked(input, input.events[i]) && to in input.events[i].dependsOn
  }

  predicate Path(input: Input, ids: seq<string>) {
    forall i | 0 <= i < |ids| - 1 :: Edge(input, ids[i], ids[i + 1])
  }

  lemma {:induction false} EdgeGoesBack(input: Input, from: string, to: string)
    requires Causal(input) && Edge(input, from, to)
    ensures 0 < First(input.bindings, to) < First(input.bindings, from)
  {
    var i :| 0 <= i < |input.events| && input.events[i].id == from && Checked(input, input.events[i]) &&
             to in input.events[i].dependsOn;
    assert Established(input, input.events[i], to);
  }

  /** Along a chain of prerequisites the first chapters strictly decrease. */
  lemma {:induction false} PathGoesBack(input: Input, ids: seq<string>, i: nat, j: nat)
    requires Causal(input) && Path(input, ids) && i < j < |ids|
    ensures 0 < First(input.bindings, ids[j]) <= First(input.bindings, ids[i]) - (j - i)
    decreases j - i
  {
    EdgeGoesBack(input, ids[i], ids[i + 1]);
    if i + 1 < j {
      PathGoesBack(input, ids, i + 1, j);
    }
  }

  /** Prerequisites among checked events never form a cycle, and no chain of them is longer than the first
      chapter of the event it starts from. */
  lemma {:induction false} PrerequisitesAcyclic(input: Input, ids: seq<string>)
    requires Causal(input) && Path(input, ids) && |ids| >= 2
    ensures forall i, j | 0 <= i < j < |ids| :: ids[i] != ids[j]
    ensures |ids| <= First(input.bindings, ids[0])
  {
    forall i, j | 0 <= i < j < |ids|
      ensures ids[i] != ids[j]
    {
      PathGoesBack(input, ids, i, j);
    }
    PathGoesBack(input, ids, 0, |ids| - 1);
  }
}
