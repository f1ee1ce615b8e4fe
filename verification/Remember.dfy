/** Remembered entities: the partitioned store of one shard, the shard's coalesced updates to it, and
    every interleaving of the two. */
module Remember {
  import opened Ids
  import opened JavaHash

  datatype Update = Update(started: set<EntityId>, stopped: set<EntityId>)

  const KEY_COUNT: nat := 5

  function KeyIndex(e: EntityId): (k: nat)
    ensures k < KEY_COUNT
    ensures k == Magnitude(TruncatedRemainder(Wrap(Polynomial(Units(e))), 5))
  {
    KeyIndexFor(e, KEY_COUNT).value
  }

  /** Stopped entities leave, then started entities enter. */
  function Written(store: set<EntityId>, u: Update): set<EntityId> {
    store - u.stopped + u.started
  }

  /** Started wins over stopped, everything not named stays, and writing an update twice is writing it once. */
  lemma WrittenMeaning(store: set<EntityId>, u: Update, e: EntityId)
    ensures e in Written(store, u) <==> e in u.started || (e in store && e !in u.stopped)
    ensures Written(Written(store, u), u) == Written(store, u)
  {
  }

  // ----- The store -----

  class RememberShardStoreState {
    var entitiesByKey: map<nat, set<EntityId>>

    /** Every entity is in its own bucket and in no other. */
    ghost predicate Valid()
      reads this
    {
      && (forall k :: k in entitiesByKey <==> 0 <= k < KEY_COUNT)
      && forall k, e :: k in entitiesByKey && e in entitiesByKey[k] ==> KeyIndex(e) == k
    }

    /** The store as one flat set. */
    ghost function Flat(): set<EntityId>
      reads this
    {
      set k, e | k in entitiesByKey && e in entitiesByKey[k] :: e
    }

    constructor (entities: seq<EntityId>)
      ensures Valid() && Flat() == Elements(entities)
    {
      entitiesByKey := map[0 := {}, 1 := {}, 2 := {}, 3 := {}, 4 := {}];
      new;
      for i := 0 to |entities|
        invariant Valid() && Flat() == Elements(entities[..i])
      {
        assert Elements(entities[..i + 1]) == Elements(entities[..i]) + {entities[i]};
        InsertEntity(entities[i]);
      }
      assert entities[..|entities|] == entities;
    }

    method InsertEntity(entity: EntityId)
      requires Valid()
      modifies this
      ensures Valid() && Flat() == old(Flat()) + {entity}
    {
      var index := KeyIndex(entity);
      entitiesByKey := entitiesByKey[index := entitiesByKey[index] + {entity}];
      FlatUpdate(old(entitiesByKey), index, entitiesByKey[index]);
    }

    method RemoveEntity(entity: EntityId)
      requires Valid()
      modifies this
      ensures Valid() && Flat() == old(Flat()) - {entity}
    {
      var index := KeyIndex(entity);
      entitiesByKey := entitiesByKey[index := entitiesByKey[index] - {entity}];
      FlatUpdate(old(entitiesByKey), index, entitiesByKey[index]);
    }

    method RememberedEntities() returns (entities: set<EntityId>)
      requires Valid()
      ensures entities == Flat()
      ensures forall e :: e in entities <==> e in entitiesByKey[KeyIndex(e)]
    {
      entities := {};
      for k := 0 to KEY_COUNT
        invariant forall e :: e in entities <==> exists j :: 0 <= j < k && e in entitiesByKey[j]
      {
        entities := entities + entitiesByKey[k];
      }
    }

    method ApplyUpdate(update: Update)
      requires Valid()
      modifies this
      ensures Valid() && Flat() == Written(old(Flat()), update)
    {
      var stopped := update.stopped;
      while stopped != {}
        invariant Valid() && stopped <= update.stopped && Flat() == old(Flat()) - (update.stopped - stopped)
        decreases stopped
      {
        var entity :| entity in stopped;
        RemoveEntity(entity);
        stopped := stopped - {entity};
      }
      var started := update.started;
      while started != {}
        invariant Valid() && started <= update.started
        invariant Flat() == old(Flat()) - update.stopped + (update.started - started)
        decreases started
      {
        var entity :| entity in started;
        InsertEntity(entity);
        started := started - {entity};
      }
    }
  }

  ghost function FlatOf(m: map<nat, set<EntityId>>): set<EntityId> {
    set k, e | k in m && e in m[k] :: e
  }

  lemma FlatUpdate(m: map<nat, set<EntityId>>, k: nat, bucket: set<EntityId>)
    requires k in m
    requires forall j, e :: j in m && e in m[j] ==> KeyIndex(e) == j
    requires forall e :: e in bucket ==> KeyIndex(e) == k
    ensures FlatOf(m[k := bucket]) == FlatOf(m) - m[k] + bucket
  {
    hide KeyIndex;
    var after := m[k := bucket];
    forall e ensures e in FlatOf(after) <==> e in FlatOf(m) - m[k] + bucket {
      if e in FlatOf(after) {
        var j :| j in after && e in after[j];
        assert KeyIndex(e) == j;
        assert e in m[k] ==> KeyIndex(e) == k;
      }
      if e in FlatOf(m) && e !in m[k] {
        var j :| j in m && e in m[j];
        assert j in after && e in after[j];
      }
      if e in bucket {
        assert k in after && e in after[k];
      }
    }
  }

  // ----- Coalesced updates -----

  datatype Tracker = Tracker(enabled: bool, inProgress: bool, starts: set<EntityId>, stops: set<EntityId>)

  function StartRecorded(t: Tracker, e: EntityId): (Tracker, Option<Update>) {
    if !t.enabled then (t, None)
    else if t.inProgress then (t.(starts := t.starts + {e}, stops := t.stops - {e}), None)
    else (t.(inProgress := true, stops := t.stops - {e}), Some(Update({e}, {})))
  }

  function StopRecorded(t: Tracker, e: EntityId): (Tracker, Option<Update>) {
    if !t.enabled then (t, None)
    else if t.inProgress then (t.(starts := t.starts - {e}, stops := t.stops + {e}), None)
    else (t.(inProgress := true, starts := t.starts - {e}), Some(Update({}, {e})))
  }

  function UpdateCompleted(t: Tracker, u: Update): (Tracker, Option<Update>) {
    if !t.enabled then (t, None)
    else
      var starts, stops := t.starts - u.started, t.stops - u.stopped;
      if starts == {} && stops == {} then (Tracker(true, false, {}, {}), None)
      else (Tracker(true, true, {}, {}), Some(Update(starts, stops)))
  }

  /** The next update repeats nothing the finished one already did, and asks for no entity both ways. */
  lemma NothingRepeated(t: Tracker, u: Update)
    requires t.starts !! t.stops
    ensures var next := UpdateCompleted(t, u).1;
      next.Some? ==> next.value.started !! u.started && next.value.stopped !! u.stopped
                     && next.value.started !! next.value.stopped
                     && (next.value.started != {} || next.value.stopped != {})
  {
  }

  class ShardRememberState {
    const enabled: bool
    var updateInProgress: bool
    var pendingStarts: set<EntityId>
    var pendingStops: set<EntityId>

    function View(): Tracker
      reads this
    {
      Tracker(enabled, updateInProgress, pendingStarts, pendingStops)
    }

    constructor (enabled: bool)
      ensures View() == Tracker(enabled, false, {}, {})
    {
      this.enabled, updateInProgress, pendingStarts, pendingStops := enabled, false, {}, {};
    }

    method RecordStart(entity: EntityId) returns (update: Option<Update>)
      modifies this
      ensures (View(), update) == StartRecorded(old(View()), entity)
    {
      if !enabled {
        return None;
      }
      pendingStops := pendingStops - {entity};
      if updateInProgress {
        pendingStarts := pendingStarts + {entity};
        return None;
      }
      updateInProgress := true;
      return Some(Update({entity}, {}));
    }

    method RecordStop(entity: EntityId) returns (update: Option<Update>)
      modifies this
      ensures (View(), update) == StopRecorded(old(View()), entity)
    {
      if !enabled {
        return None;
      }
      pendingStarts := pendingStarts - {entity};
      if updateInProgress {
        pendingStops := pendingStops + {entity};
        return None;
      }
      updateInProgress := true;
      return Some(Update({}, {entity}));
    }

    method CompleteUpdate(update: Update) returns (next: Option<Update>)
      modifies this
      ensures (View(), next) == UpdateCompleted(old(View()), update)
    {
      if !enabled {
        return None;
      }
      updateInProgress := false;
      var started := update.started;
      while started != {}
        invariant started <= update.started && pendingStarts == old(pendingStarts) - (update.started - started)
        invariant pendingStops == old(pendingStops) && !updateInProgress
        decreases started
      {
        var entity :| entity in started;
        pendingStarts := pendingStarts - {entity};
        started := started - {entity};
      }
      var stopped := update.stopped;
      while stopped != {}
        invariant stopped <= update.stopped && pendingStops == old(pendingStops) - (update.stopped - stopped)
        invariant pendingStarts == old(pendingStarts) - update.started && !updateInProgress
        decreases stopped
      {
        var entity :| entity in stopped;
        pendingStops := pendingStops - {entity};
        stopped := stopped - {entity};
      }
      assert update.stopped - {} == update.stopped;
      if pendingStarts == {} && pendingStops == {} {
        return None;
      }
      next := Some(Update(pendingStarts, pendingStops));
      pendingStarts, pendingStops := {}, {};
      updateInProgress := true;
    }
  }

  // ----- Every interleaving of recording, writing and completing -----

  /** `recorded` is the store as if every recorded change had been written at once, in order. */
  datatype State = State(t: Tracker, store: set<EntityId>, inFlight: Option<Update>, written: bool, recorded: set<EntityId>)

  datatype Action = Start(entity: EntityId) | Stop(entity: EntityId) | Write | Complete

  predicate Enabled(x: State, a: Action) {
    match a
    case Start(_) => true
    case Stop(_) => true
    case Write => x.inFlight.Some?
    case Complete => x.inFlight.Some? && x.written
  }

  /** A change handed out for writing while another is still out would replace it here; the theorem
      shows that this never happens. */
  function Sent(x: State, t: Tracker, u: Option<Update>): State {
    if u.Some? then x.(t := t, inFlight := u, written := false) else x.(t := t)
  }

  function Next(x: State, a: Action): State
    requires Enabled(x, a)
  {
    match a
    case Start(e) =>
      var (t, u) := StartRecorded(x.t, e);
      Sent(x, t, u).(recorded := if x.t.enabled then x.recorded + {e} else x.recorded)
    case Stop(e) =>
      var (t, u) := StopRecorded(x.t, e);
      Sent(x, t, u).(recorded := if x.t.enabled then x.recorded - {e} else x.recorded)
    case Write => x.(store := Written(x.store, x.inFlight.value), written := true)
    case Complete =>
      var (t, u) := UpdateCompleted(x.t, x.inFlight.value);
      Sent(x.(inFlight := None, written := false), t, u)
  }

  ghost predicate Behaviour(states: seq<State>, actions: seq<Action>) {
    && |states| == |actions| + 1
    && (exists enabled, store :: states[0] == State(Tracker(enabled, false, {}, {}), store, None, false, store))
    && forall i :: 0 <= i < |actions| ==> Enabled(states[i], actions[i]) && states[i + 1] == Next(states[i], actions[i])
  }

  /** The store after the update that is out and then the pending changes. */
  function Settled(x: State): set<EntityId> {
    var after := if x.inFlight.Some? then Written(x.store, x.inFlight.value) else x.store;
    Written(after, Update(x.t.starts, x.t.stops))
  }

  ghost predicate Refines(x: State) {
    && Settled(x) == x.recorded
    && x.t.starts !! x.t.stops
    && (x.inFlight.Some? ==> x.inFlight.value.started !! x.inFlight.value.stopped)
    && (x.t.inProgress <==> x.inFlight.Some?)
    && (!x.t.inProgress ==> x.t.starts == {} && x.t.stops == {})
    && (x.written ==> x.inFlight.Some? && Written(x.store, x.inFlight.value) == x.store)
    && (!x.t.enabled ==> x.inFlight.None?)
  }

  lemma NextRefines(x: State, a: Action)
    requires Refines(x) && Enabled(x, a)
    ensures Refines(Next(x, a))
    ensures (a.Start? || a.Stop?) && x.inFlight.Some? ==> Next(x, a).inFlight == x.inFlight
  {
    if a.Complete? {
      CompleteRefines(x);
    }
  }

  lemma CompleteRefines(x: State)
    requires Refines(x) && Enabled(x, Complete)
    ensures Refines(Next(x, Complete))
  {
    var y := Next(x, Complete);
    var u := x.inFlight.value;
    forall e ensures e in Settled(y) <==> e in Settled(x) {
      assert e in u.started ==> e in x.store && e !in u.stopped;
      assert e in u.stopped ==> e !in x.store;
    }
  }

  /** In every interleaving, at most one update is out at a time, the store plus that update plus the
      pending changes is exactly the recorded history, and with nothing out the store is that history. */
  lemma {:induction false} UpdatesRefineHistory(states: seq<State>, actions: seq<Action>, n: nat)
    requires Behaviour(states, actions) && n < |states|
    ensures Settled(states[n]) == states[n].recorded
    ensures states[n].inFlight.None? ==> states[n].store == states[n].recorded
    ensures n < |actions| && !actions[n].Complete? && states[n].inFlight.Some? ==>
      states[n + 1].inFlight == states[n].inFlight
    ensures !states[n].t.enabled ==> states[n].inFlight.None?
  {
    ReachesRefines(states, actions, n);
    if n < |actions| {
      NextRefines(states[n], actions[n]);
    }
  }

  lemma {:induction false} ReachesRefines(states: seq<State>, actions: seq<Action>, n: nat)
    requires Behaviour(states, actions) && n < |states|
    ensures Refines(states[n])
  {
    if n > 0 {
      ReachesRefines(states, actions, n - 1);
      NextRefines(states[n - 1], actions[n - 1]);
    }
  }
}
