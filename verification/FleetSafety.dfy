/** Every interleaving keeps the invariant. */
module FleetSafety {
  import opened Wrappers
  import opened Fleet
  import opened FleetInvariant

  /** Every step of every thread keeps the invariant. */
  lemma NextKeeps(s: State, a: Action)
    requires Inv(s) && Next(s, a).Some?
    ensures Inv(Next(s, a).value)
  {
    match a
    case Accept(k, b) => AcceptKeeps(s, k, b);
    case Arrive => ArriveKeeps(s);
    case Depart(b) => DepartKeeps(s, b);
    case Sup(c) => SupervisorKeeps(s, c);
    case Signal => MainKeeps(s, Next(s, a).value);
    case MainStep(c) => MainKeeps(s, Next(s, a).value);
    case AcceptorStep(c) => MainKeeps(s, Next(s, a).value);
    case Step(h, c) => HandlerKeeps(s, h, c);
    case PumpStep(h, c) => PumpKeeps(s, h, c);
  }

  /** The invariant holds of every state any run can reach. */
  lemma {:induction false} RunKeeps(s: State, run: seq<Action>)
    requires Inv(s) && Run(s, run).Some?
    ensures Inv(Run(s, run).value)
    decreases |run|
  {
    if run != [] {
      NextKeeps(s, run[0]);
      RunKeeps(Next(s, run[0]).value, run[1..]);
    }
  }

  lemma Reachable(run: seq<Action>)
    requires Run(INIT, run).Some?
    ensures Inv(Run(INIT, run).value)
  {
    hide Story;
    hide Count;
    RunKeeps(INIT, run);
  }
}
