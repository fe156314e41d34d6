/** The signal handler of `serve` as signals drive it: every invocation is on the main
    thread, on top of the one that it interrupts. */
module ShutdownSignals {
  import opened Wrappers

  /** Where one invocation is: at the lock, looking at the flag, raising it, dropping the
      lock, or in the body. */
  datatype Frame = AtLock | Looking | Raising | Dropping(first: bool) | Body

  /** The invocations that have not returned, the latest last.  The lock is not one that
      its holder can take again. */
  datatype State = State(stack: seq<Frame>, lock: Option<nat>, done: bool)

  const QUIET := State([], None, false)

  /** An invocation, by a signal or by `serve` itself; or a step of the latest, the only
      one that can run. */
  datatype Action = Invoke | Step(ends: bool)

  function Next(s: State, a: Action): Option<State> {
    if a.Invoke? then Some(s.(stack := s.stack + [AtLock]))
    else if s.stack == [] then None
    else
      var top := |s.stack| - 1;
      var below := s.stack[..top];
      match s.stack[top]
      case AtLock => if s.lock.Some? then None else Some(s.(stack := below + [Looking], lock := Some(top)))
      case Looking => Some(s.(stack := below + [if s.done then Dropping(false) else Raising]))
      case Raising => Some(s.(stack := below + [Dropping(true)], done := true))
      case Dropping(first) =>
        if first then Some(s.(stack := below + [Body], lock := None))
        else Some(s.(stack := below, lock := None))
      case Body => Some(if a.ends then s.(stack := below) else s)
  }

  function Run(s: State, run: seq<Action>): Option<State>
    decreases |run|
  {
    if run == [] then Some(s)
    else match Next(s, run[0])
         case None => None
         case Some(s') => Run(s', run[1..])
  }

  predicate InSection(f: Frame) {
    f.Looking? || f.Raising? || f.Dropping?
  }

  /** An invocation was interrupted between taking the lock and dropping it. */
  predicate Interrupted(s: State) {
    exists i :: 0 <= i < |s.stack| - 1 && InSection(s.stack[i])
  }

  ghost predicate Inv(s: State) {
    && (s.lock.Some? ==>
          && s.lock.value < |s.stack| && InSection(s.stack[s.lock.value])
          && forall i :: s.lock.value < i < |s.stack| ==> s.stack[i] == AtLock)
    && (forall i :: 0 <= i < |s.stack| && InSection(s.stack[i]) ==> s.lock == Some(i))
  }

  lemma NextKeeps(s: State, a: Action)
    requires Inv(s) && Next(s, a).Some?
    ensures Inv(Next(s, a).value)
    ensures Interrupted(s) ==> Interrupted(Next(s, a).value) && |Next(s, a).value.stack| >= |s.stack|
  {
    var s' := Next(s, a).value;
    if i :| 0 <= i < |s.stack| - 1 && InSection(s.stack[i]) {
      assert s'.stack[i] == s.stack[i];
    }
  }

  lemma {:induction false} RunKeeps(s: State, run: seq<Action>)
    requires Inv(s) && Run(s, run).Some?
    ensures Inv(Run(s, run).value)
    ensures Interrupted(s) ==> Interrupted(Run(s, run).value)
    decreases |run|
  {
    if run != [] {
      NextKeeps(s, run[0]);
      RunKeeps(Next(s, run[0]).value, run[1..]);
    }
  }

  /** Steps until an invocation returns. */
  function Rank(f: Frame): nat {
    match f
    case AtLock => 5
    case Looking => 4
    case Raising => 3
    case Dropping(_) => 2
    case Body => 1
  }

  /** All invocations can return, one after the other, if none was interrupted inside the
      guard. */
  lemma {:induction false} AllReturn(s: State) returns (rest: seq<Action>)
    requires Inv(s) && !Interrupted(s)
    ensures Invoke !in rest && Run(s, rest).Some? && Run(s, rest).value.stack == []
    decreases |s.stack|, if s.stack == [] then 0 else Rank(s.stack[|s.stack| - 1])
  {
    rest := [];
    if s.stack != [] {
      var s' := Next(s, Step(true)).value;
      NextKeeps(s, Step(true));
      assert forall i :: 0 <= i < |s.stack| - 1 ==> s'.stack[i] == s.stack[i];
      var more := AllReturn(s');
      rest := [Step(true)] + more;
      assert rest[1..] == more;
    }
  }

  /** The invocations under way can return exactly if none of them was interrupted by
      another between taking the lock and dropping it; else `serve` hangs. */
  lemma ReturnsIff(run: seq<Action>)
    requires Run(QUIET, run).Some?
    ensures var s := Run(QUIET, run).value;
            (exists rest :: Run(s, rest).Some? && Run(s, rest).value.stack == []) <==> !Interrupted(s)
  {
    RunKeeps(QUIET, run);
    var s := Run(QUIET, run).value;
    if Interrupted(s) {
      forall rest ensures !(Run(s, rest).Some? && Run(s, rest).value.stack == []) {
        if Run(s, rest).Some? {
          RunKeeps(s, rest);
        }
      }
    } else {
      var rest := AllReturn(s);
    }
  }
}
