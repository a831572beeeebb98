/**
 * The WebSocket manager: the set of active subscriber connections, and a
 * best-effort broadcast that tries every subscriber once and drops the
 * ones whose send failed.
 */
module WSManager {

  /** A connected WebSocket, compared by identity. */
  datatype Handle = Handle(connection: nat)

  /** The handles of `attempts` whose send failed, in the order they were tried (`to_remove`). */
  function Failures(attempts: seq<Handle>, failing: set<Handle>): (r: seq<Handle>)
    ensures |r| <= |attempts|
    ensures forall h :: h in r <==> h in attempts && h in failing
    decreases |attempts|
  {
    if attempts == [] then []
    else
      var rest := Failures(attempts[..|attempts| - 1], failing);
      var last := attempts[|attempts| - 1];
      assert forall h :: h in attempts <==> h in attempts[..|attempts| - 1] || h == last;
      if last in failing then rest + [last] else rest
  }

  /** One more attempt extends the failures by that handle exactly when its send failed. */
  lemma FailuresSnoc(attempts: seq<Handle>, h: Handle, failing: set<Handle>)
    ensures Failures(attempts + [h], failing) ==
      Failures(attempts, failing) + (if h in failing then [h] else [])
  {
    assert (attempts + [h])[..|attempts|] == attempts;
  }

  /** Every handle appears at most once. */
  predicate Distinct(s: seq<Handle>)
  {
    forall i, j :: 0 <= i < j < |s| ==> s[i] != s[j]
  }

  /** A collection without repeats that covers a set exactly has the set's size. */
  lemma {:induction false} DistinctCard(s: seq<Handle>)
    requires Distinct(s)
    ensures |set h | h in s| == |s|
    decreases |s|
  {
    if s != [] {
      var init := s[..|s| - 1];
      var last := s[|s| - 1];
      assert Distinct(init);
      DistinctCard(init);
      assert last !in init;
      assert (set h | h in s) == (set h | h in init) + {last};
    }
  }

  class WSManager {
    /** `self.active` */
    var active: set<Handle>

    constructor ()
      ensures active == {}
    {
      active := {};
    }

    /** `connect(ws)`: the accepted connection joins the subscribers. */
    method Connect(ws: Handle)
      modifies this
      ensures active == old(active) + {ws}
    {
      active := active + {ws};
    }

    /** `disconnect(ws)`: `discard`, so an absent handle is no error. */
    method Disconnect(ws: Handle)
      modifies this
      ensures active == old(active) - {ws}
      ensures ws !in old(active) ==> active == old(active)
    {
      active := active - {ws};
    }

    /**
     * `broadcast(message)`, the payload already serialised once. Every
     * subscriber present at the start is tried exactly once, in some
     * order (`attempts`); the ones in `failing` (an exception or the
     * timeout) are collected in `removed` and then discarded. No failure
     * escapes, and nothing is added.
     */
    method Broadcast(failing: set<Handle>) returns (attempts: seq<Handle>, removed: seq<Handle>)
      modifies this
      ensures Distinct(attempts) && (forall h :: h in attempts <==> h in old(active))
      ensures |attempts| == |old(active)|
      ensures removed == Failures(attempts, failing)
      ensures forall h :: h in removed <==> h in old(active) && h in failing
      ensures active == old(active) - failing
    {
      attempts, removed := TryAll(active, failing);
      DiscardAll(removed);
      assert forall h :: h in active <==> h in old(active) && h !in failing;
    }

    /** The `for ws in list(self.active)` loop: one send per handle of the snapshot. */
    method TryAll(snapshot: set<Handle>, failing: set<Handle>) returns (attempts: seq<Handle>, removed: seq<Handle>)
      ensures Distinct(attempts) && (forall h :: h in attempts <==> h in snapshot)
      ensures |attempts| == |snapshot|
      ensures removed == Failures(attempts, failing)
    {
      var pending := snapshot;
      attempts, removed := [], [];
      while pending != {}
        invariant pending <= snapshot
        invariant Distinct(attempts)
        invariant forall h :: h in attempts <==> h in snapshot && h !in pending
        invariant removed == Failures(attempts, failing)
        decreases |pending|
      {
        var ws :| ws in pending;
        FailuresSnoc(attempts, ws, failing);
        attempts := attempts + [ws];
        if ws in failing {
          removed := removed + [ws];
        }
        pending := pending - {ws};
      }
      DistinctCard(attempts);
      assert (set h | h in attempts) == snapshot;
    }

    /** The `for ws in to_remove: self.active.discard(ws)` loop. */
    method DiscardAll(removed: seq<Handle>)
      modifies this
      ensures forall h :: h in active <==> h in old(active) && h !in removed
    {
      for j := 0 to |removed|
        invariant forall h :: h in active <==> h in old(active) && h !in removed[..j]
      {
        active := active - {removed[j]};
        assert removed[..j + 1] == removed[..j] + [removed[j]];
      }
      assert removed[..|removed|] == removed;
    }
  }
}
