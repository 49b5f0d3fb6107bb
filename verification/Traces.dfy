/** States linked by a run of single writes. */
module Traces {
  import opened Repository
  import opened Steps

  ghost predicate RunBetween(g: Content, s: State, t: State, states: seq<State>, acts: seq<Action>) {
    Run(g, states, acts) && states[0] == s && states[|states| - 1] == t
  }

  /** Some run of single writes leads from s to t. */
  ghost predicate Leads(g: Content, s: State, t: State) {
    exists states, acts :: RunBetween(g, s, t, states, acts)
  }

  lemma LeadsSelf(g: Content, s: State)
    ensures Leads(g, s, s)
  {
    hide Step;
    assert RunBetween(g, s, s, [s], []);
  }

  lemma LeadsStep(g: Content, s: State, t: State, a: Action, u: State)
    requires Leads(g, s, t) && Step(g, t, a, u)
    ensures Leads(g, s, u)
  {
    hide Step;
    var states, acts :| RunBetween(g, s, t, states, acts);
    RunSnoc(g, states, acts, a, u);
    assert RunBetween(g, s, u, states + [u], acts + [a]);
  }

  lemma RunSnoc(g: Content, states: seq<State>, acts: seq<Action>, a: Action, u: State)
    requires Run(g, states, acts) && Step(g, states[|states| - 1], a, u)
    ensures Run(g, states + [u], acts + [a])
  {
    hide Step;
    forall i | 0 <= i < |acts + [a]| ensures StepAt(g, states + [u], acts + [a], i) {
      if i < |acts| { assert StepAt(g, states, acts, i); }
    }
  }
}
