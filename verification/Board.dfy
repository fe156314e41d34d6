/**
  The occupant of a board and the four lock-protected rules that change it.

  `Decide` is the whole state machine of `Board.occupant` as one function; the
  methods of class `Board` are proved against it, and the interleaved fleet in
  Fleet.dfy uses it as the effect of a critical section.
 */
module Occupancy {
  import opened Wrappers

  datatype Kind = Serial | Flash

  /** The four critical sections, each with the session it is about. */
  datatype Op<S> = ClaimSerial(session: S) | ClaimFlash(session: S) | Release(session: S) | Take

  /** What a critical section answers, and the occupant it leaves behind. */
  datatype Decision<S> = Decision(ok: bool, previous: Option<S>, occupant: Option<S>)

  function Decide<S(==)>(op: Op<S>, seen: Option<S>, seenIsFlash: bool): Decision<S> {
    match op
    case ClaimSerial(s) =>
      if seen.Some? then Decision(false, None, seen) else Decision(true, None, Some(s))
    case ClaimFlash(s) =>
      if seen.Some? && seenIsFlash then Decision(false, None, seen) else Decision(true, seen, Some(s))
    case Release(s) =>
      if seen == Some(s) then Decision(true, None, None) else Decision(false, None, seen)
    case Take =>
      Decision(true, seen, None)
  }

  /** A live socket, a stop flag, and the kind of session using them. */
  class Session {
    const kind: Kind
    var stop: bool
    var shut: bool
    var closed: bool

    constructor (kind: Kind)
      ensures this.kind == kind && !stop && !shut && !closed
    {
      this.kind := kind;
      stop, shut, closed := false, false, false;
    }

    /** The stop flag is raised before the socket goes down. */
    method Terminate()
      modifies this
      ensures stop && shut && closed
    {
      stop := true;
      shut := true;
      closed := true;
    }
  }

  /** Python's "a session or None". */
  function Maybe(session: Session?): Option<Session> {
    if session == null then None else Some(session)
  }

  /** Tell a displaced session to end.  The bounded wait for its thread that follows
      changes nothing here, however it turns out. */
  method TerminateDisplaced(session: Session)
    modifies session
    ensures session.stop && session.shut && session.closed
  {
    session.Terminate();
  }

  /** The departure of a board, as far as its occupant goes: the board is left idle, and
      whoever was on it is told to end, outside the lock. */
  method SweepOut(board: Board) returns (taken: Session?)
    modifies board`occupant, board.occupant
    ensures taken == old(board.occupant) && board.occupant == null
    ensures taken != null ==> taken.stop && taken.shut && taken.closed
  {
    taken := board.TakeOccupant();
    if taken != null {
      TerminateDisplaced(taken);
    }
  }

  class Board {
    var occupant: Session?

    constructor ()
      ensures occupant == null
    {
      occupant := null;
    }

    ghost function Occupant(): Option<Session>
      reads this
    {
      Maybe(occupant)
    }

    ghost predicate HoldsFlash()
      reads this
    {
      occupant != null && occupant.kind == Flash
    }

    method ClaimSerial(session: Session) returns (ok: bool)
      modifies this`occupant
      ensures Decision(ok, None, Occupant()) == Decide(Op.ClaimSerial(session), old(Occupant()), old(HoldsFlash()))
      ensures ok <==> old(occupant) == null
      ensures ok ==> occupant == session
      ensures !ok ==> occupant == old(occupant)
    {
      if occupant != null {
        return false;
      }
      occupant := session;
      return true;
    }

    method ClaimFlash(session: Session) returns (ok: bool, previous: Session?)
      modifies this`occupant
      ensures Decision(ok, Maybe(previous), Occupant())
           == Decide(Op.ClaimFlash(session), old(Occupant()), old(HoldsFlash()))
      ensures ok <==> !old(HoldsFlash())
      ensures ok ==> occupant == session && previous == old(occupant)
      ensures !ok ==> occupant == old(occupant) && previous == null
      ensures previous != null ==> previous.kind == Serial
    {
      if occupant != null && occupant.kind == Flash {
        return false, null;
      }
      previous := occupant;
      occupant := session;
      ok := true;
    }

    method Release(session: Session)
      modifies this`occupant
      ensures Occupant() == Decide(Op.Release(session), old(Occupant()), old(HoldsFlash())).occupant
      ensures occupant == if old(occupant) == session then null else old(occupant)
    {
      if occupant == session {
        occupant := null;
      }
    }

    method TakeOccupant() returns (taken: Session?)
      modifies this`occupant
      ensures Decision(true, Maybe(taken), Occupant())
           == Decide(Take, old(Occupant()), old(HoldsFlash()))
      ensures taken == old(occupant) && occupant == null
    {
      taken := occupant;
      occupant := null;
    }
  }
}
