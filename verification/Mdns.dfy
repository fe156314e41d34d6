/** The handle table of `Advertiser`; zeroconf itself is not part of this model. */
module Mdns {
  datatype ServiceType = SerialService | FlashService

  datatype Service = Service(name: string, kind: ServiceType, port: nat, uid: string)

  predicate Distinct<T(==)>(s: seq<T>) {
    forall i, j :: 0 <= i < j < |s| ==> s[i] != s[j]
  }

  class Advertiser {
    var handles: map<nat, Service>
    var nextHandle: nat
    var closed: bool
    /** Every handle zeroconf was told to unregister, in order. */
    ghost var withdrawn: seq<nat>

    /** Every handle ever issued is either registered or was withdrawn, once. */
    ghost predicate Valid()
      reads this
    {
      && nextHandle >= 1
      && Distinct(withdrawn)
      && (forall h :: h in handles ==> 1 <= h < nextHandle && h !in withdrawn)
      && (forall h :: h in withdrawn ==> 1 <= h < nextHandle)
      && (forall h :: 1 <= h < nextHandle ==> h in handles || h in withdrawn)
    }

    constructor ()
      ensures Valid() && handles == map[] && nextHandle == 1 && !closed && withdrawn == []
    {
      handles, nextHandle, closed, withdrawn := map[], 1, false, [];
    }

    method Register(name: string, kind: ServiceType, port: nat, uid: string) returns (handle: nat)
      requires Valid()
      modifies this
      ensures Valid() && closed == old(closed) && withdrawn == old(withdrawn)
      ensures handle == old(nextHandle) && nextHandle == handle + 1
      ensures handle !in old(handles)
      ensures handles == old(handles)[handle := Service(name, kind, port, uid)]
    {
      handle := nextHandle;
      nextHandle := nextHandle + 1;
      handles := handles[handle := Service(name, kind, port, uid)];
    }

    /** A second call on the same handle does nothing. */
    method Unregister(handle: nat)
      requires Valid()
      modifies this
      ensures Valid() && closed == old(closed) && nextHandle == old(nextHandle)
      ensures handles == old(handles) - {handle}
      ensures withdrawn == if handle in old(handles) then old(withdrawn) + [handle] else old(withdrawn)
    {
      if handle in handles {
        handles := handles - {handle};
        withdrawn := withdrawn + [handle];
      }
    }

    /** Withdraws what is left, once; a second call does nothing. */
    method Close()
      requires Valid()
      modifies this
      ensures Valid() && closed && nextHandle == old(nextHandle)
      ensures old(closed) ==> handles == old(handles) && withdrawn == old(withdrawn)
      ensures !old(closed) ==> handles == map[] && old(withdrawn) <= withdrawn
    {
      if closed {
        return;
      }
      var left := handles.Keys;
      while left != {}
        invariant Valid() && !closed && nextHandle == old(nextHandle)
        invariant handles.Keys == left && old(withdrawn) <= withdrawn
        decreases left
      {
        var handle :| handle in left;
        Unregister(handle);
        left := left - {handle};
      }
      closed := true;
    }
  }
}
