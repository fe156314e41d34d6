/**
  The signal handler of `serve`: however often it is invoked, also from within
  itself, it tears everything down once.
 */
module Shutdown {
  import opened Mdns
  import opened Listeners
  import opened Supervision

  class ServeShutdown {
    const supervisor: Supervisor
    const acceptLoop: AcceptLoop
    const advertiser: Advertiser
    var stopping: bool
    var done: bool

    constructor (supervisor: Supervisor)
      ensures !done && !stopping && this.supervisor == supervisor
      ensures acceptLoop == supervisor.acceptLoop && advertiser == supervisor.advertiser
    {
      this.supervisor := supervisor;
      acceptLoop, advertiser := supervisor.acceptLoop, supervisor.advertiser;
      stopping, done := false, false;
    }

    ghost predicate Wired() {
      acceptLoop == supervisor.acceptLoop && advertiser == supervisor.advertiser
    }

    /** Nothing advertised or listening is left, and every handle ever issued was
        withdrawn exactly once. */
    ghost predicate TornDown()
      reads this, acceptLoop, advertiser
    {
      && stopping && acceptLoop.stopped && acceptLoop.open == map[] && acceptLoop.registered == map[]
      && advertiser.closed && advertiser.handles == map[]
      && Distinct(advertiser.withdrawn)
      && forall h :: 1 <= h < advertiser.nextHandle <==> h in advertiser.withdrawn
    }

    /** One invocation.  Up to `nested` further signals may arrive while it runs,
        each between any two steps of the body.  The Supervisor thread has exited by the
        end of the join, so its state is the one between two ticks. */
    method Invoke(nested: nat)
      requires Wired() && (!done ==> supervisor.Valid())
      modifies this, acceptLoop, advertiser
      ensures done
      ensures old(done) ==>
                stopping == old(stopping) && unchanged(acceptLoop) && unchanged(advertiser)
      ensures !old(done) ==> TornDown()
      decreases nested, 2
    {
      if done {
        return;
      }
      done := true;
      Again(nested);
      stopping := true;
      Again(nested);
      var left := supervisor.boards;
      while left != map[]
        invariant done && stopping && advertiser.Valid() && !advertiser.closed && acceptLoop.Valid()
        invariant Listening(left, acceptLoop.open, acceptLoop.registered)
        decreases left.Keys
      {
        var uid :| uid in left;
        CloseListeners(left, uid, left[uid], nested);
        left := left - {uid};
      }
      assert acceptLoop.registered.Keys == {};
      advertiser.Close();
      Again(nested);
      acceptLoop.Close();
      Again(nested);
    }

    /** A further signal, if one arrives here. */
    method Again(nested: nat)
      requires Wired() && done
      modifies this, acceptLoop, advertiser
      ensures done && stopping == old(stopping) && unchanged(acceptLoop) && unchanged(advertiser)
      decreases nested, 0
    {
      if nested > 0 {
        Invoke(nested - 1);
      }
    }

    /** Unregister and close both listeners of one board. */
    method CloseListeners(ghost left: map<string, Resources>, uid: string, r: Resources, nested: nat)
      requires Wired() && done
      requires acceptLoop.Valid() && uid in left && left[uid] == r
      requires Listening(left, acceptLoop.open, acceptLoop.registered)
      modifies this, acceptLoop, advertiser
      ensures done && stopping == old(stopping) && unchanged(advertiser)
      ensures acceptLoop.Valid() && acceptLoop.stopped == old(acceptLoop.stopped)
      ensures Listening(left - {uid}, acceptLoop.open, acceptLoop.registered)
      decreases nested, 1
    {
      SilenceBoard(left, acceptLoop.open, acceptLoop.registered, uid);
      hide Listening;
      acceptLoop.Unregister(r.serialSocket);
      Again(nested);
      acceptLoop.CloseSocket(r.serialSocket);
      Again(nested);
      acceptLoop.Unregister(r.flashSocket);
      Again(nested);
      acceptLoop.CloseSocket(r.flashSocket);
      Again(nested);
      assert acceptLoop.open == old(acceptLoop.open) - {r.serialSocket} - {r.flashSocket};
      assert acceptLoop.registered == old(acceptLoop.registered) - {r.serialSocket} - {r.flashSocket};
    }
  }
}
