/** Reachability between protocol states. */
module ProtocolRuns {
  import opened Basics
  import opened Protocol

  ghost predicate Leads(c: Config, s: State, s': State)
    requires s.proc.Shaped()
  {
    exists steps :: From(c, s, steps) == Some(s')
  }

  lemma {:induction false} FromAppend(c: Config, s: State, steps: seq<Step>, step: Step)
    requires s.proc.Shaped() && From(c, s, steps).Some?
    ensures From(c, s, steps + [step]) == Do(c, From(c, s, steps).value, step)
    decreases |steps|
  {
    if steps == [] {
      assert From(c, s, [step]) == match Do(c, s, step) case None => None case Some(s') => From(c, s', [step][1..]);
    } else {
      assert (steps + [step])[1..] == steps[1..] + [step];
      FromAppend(c, Do(c, s, steps[0]).value, steps[1..], step);
    }
  }

  lemma LeadsHere(c: Config, s: State)
    requires s.proc.Shaped()
    ensures Leads(c, s, s)
  {
    assert From(c, s, []) == Some(s);
  }

  lemma LeadsStep(c: Config, s: State, mid: State, step: Step, s': State)
    requires s.proc.Shaped() && Leads(c, s, mid) && mid.proc.Shaped() && Do(c, mid, step) == Some(s')
    ensures Leads(c, s, s')
  {
    var steps :| From(c, s, steps) == Some(mid);
    FromAppend(c, s, steps, step);
    assert From(c, s, steps + [step]) == Some(s');
  }

  lemma LeadsFrom(c: Config, s: State, step: Step, mid: State, s': State)
    requires s.proc.Shaped() && Do(c, s, step) == Some(mid) && mid.proc.Shaped() && Leads(c, mid, s')
    ensures Leads(c, s, s')
  {
    var rest :| From(c, mid, rest) == Some(s');
    assert ([step] + rest)[1..] == rest;
    assert From(c, s, [step] + rest) == Some(s');
  }
}
