// For writing down runs state by state: each kind of step is a step of the system.
module PoolPlay {
  import opened PoolProtocol

  lemma StepIsNext(c: Config, s: State, s': State, t: Tid, choice: Choice)
    requires CallStep(c, s, s', t, choice)
    ensures Next(c, s, s')
  {
  }

  lemma ArrivalIsNext(c: Config, s: State, s': State, request: Request)
    requires Arrival(s, s', request)
    ensures Next(c, s, s')
  {
  }

  lemma PassageIsNext(c: Config, s: State, s': State, delta: nat)
    requires Passage(s, s', delta)
    ensures Next(c, s, s')
  {
  }
}
