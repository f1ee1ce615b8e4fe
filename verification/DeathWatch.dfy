/** Death watch: who is told when an actor terminates. */
module DeathWatch {
  import opened Ids

  type Path = Id

  datatype Kind = Signal | Custom

  /** `id` tells registrations of one watcher apart. */
  datatype Registration = Registration(id: nat, watcher: Path, kind: Kind)

  datatype Outcome = Accepted | Ignored | AlreadyWatching

  function Watchers(m: map<Path, seq<Registration>>, subject: Path): seq<Registration> {
    if subject in m then m[subject] else []
  }

  function Find(regs: seq<Registration>, watcher: Path): (r: Option<Registration>)
    ensures r.Some? ==> r.value in regs && r.value.watcher == watcher
    ensures r.None? ==> forall x :: x in regs ==> x.watcher != watcher
  {
    if regs == [] then None else if regs[0].watcher == watcher then Some(regs[0]) else Find(regs[1..], watcher)
  }

  /** Without a queued notice, a watcher may register once; asking again by signal is harmless. */
  function Admission(regs: seq<Registration>, reg: Registration): Outcome {
    match Find(regs, reg.watcher)
    case None => Accepted
    case Some(existing) => if existing.kind.Signal? && reg.kind.Signal? then Ignored else AlreadyWatching
  }

  /** A notice that is already queued answers a request of its own kind and rules out the other. */
  function Gate(sameQueued: bool, otherQueued: bool): Outcome {
    if sameQueued then Ignored else if otherQueued then AlreadyWatching else Accepted
  }

  function Without(regs: seq<Registration>, watcher: Path): (kept: seq<Registration>)
    ensures forall x :: x in kept <==> x in regs && x.watcher != watcher
  {
    if regs == [] then []
    else
      var rest := Without(regs[..|regs| - 1], watcher);
      var last := regs[|regs| - 1];
      if last.watcher == watcher then rest else rest + [last]
  }

  /** Nobody is listed twice. */
  ghost predicate Single(regs: seq<Registration>) {
    forall i, j :: 0 <= i < j < |regs| ==> regs[i].watcher != regs[j].watcher
  }

  lemma {:induction false} WithoutSingle(regs: seq<Registration>, watcher: Path)
    requires Single(regs)
    ensures Single(Without(regs, watcher))
  {
    if regs != [] {
      WithoutSingle(regs[..|regs| - 1], watcher);
    }
  }

  /** A watcher is registered exactly when it is not yet and has no notice queued; it is refused exactly when a
      notice of the other kind is queued, or none is and it watches already other than by signal twice. */
  lemma WatchOutcomes(regs: seq<Registration>, reg: Registration, same: bool, other: bool)
    requires Single(regs)
    ensures var gate := Gate(same, other);
      var outcome := if gate.Accepted? then Admission(regs, reg) else gate;
      var watching := exists x :: x in regs && x.watcher == reg.watcher;
      && (outcome.Accepted? <==> !same && !other && !watching)
      && (outcome.AlreadyWatching? <==>
            !same && (other || exists x :: x in regs && x.watcher == reg.watcher && (x.kind.Custom? || reg.kind.Custom?)))
  {
    hide Find;
    var found := Find(regs, reg.watcher);
    if found.Some? {
      forall x | x in regs && x.watcher == reg.watcher ensures x == found.value {
        var i :| 0 <= i < |regs| && regs[i] == x;
        var j :| 0 <= j < |regs| && regs[j] == found.value;
      }
    }
  }

  class DeathWatchRegistry {
    var watchers: map<Path, seq<Registration>>
    var queuedSignals: set<(Path, Path)>
    var queuedCustoms: set<(Path, Path)>
    var notified: seq<(Path, Registration)>

    ghost predicate Valid()
      reads this
    {
      forall s :: s in watchers ==> watchers[s] != [] && Single(watchers[s])
    }

    constructor ()
      ensures Valid() && watchers == map[] && queuedSignals == {} && queuedCustoms == {} && notified == []
    {
      watchers, queuedSignals, queuedCustoms, notified := map[], {}, {}, [];
    }

    method Watch(subject: Path, reg: Registration) returns (outcome: Outcome)
      requires Valid()
      modifies this`watchers
      ensures Valid()
      ensures outcome == if GateOf(queuedSignals, queuedCustoms, subject, reg).Accepted?
                         then Admission(Watchers(old(watchers), subject), reg)
                         else GateOf(queuedSignals, queuedCustoms, subject, reg)
      ensures watchers == if outcome.Accepted? then old(watchers)[subject := Watchers(old(watchers), subject) + [reg]]
                          else old(watchers)
    {
      if reg.kind.Signal? && (subject, reg.watcher) in queuedSignals {
        return Ignored;
      }
      if reg.kind.Custom? && (subject, reg.watcher) in queuedCustoms {
        return Ignored;
      }
      if reg.kind.Signal? && (subject, reg.watcher) in queuedCustoms {
        return AlreadyWatching;
      }
      if reg.kind.Custom? && (subject, reg.watcher) in queuedSignals {
        return AlreadyWatching;
      }
      var regs := Watchers(watchers, subject);
      var existing := Find(regs, reg.watcher);
      if existing.Some? {
        if existing.value.kind.Signal? && reg.kind.Signal? {
          return Ignored;
        }
        return AlreadyWatching;
      }
      watchers := watchers[subject := regs + [reg]];
      return Accepted;
    }

    method Unwatch(subject: Path, watcher: Path)
      requires Valid()
      modifies this`watchers, this`queuedSignals, this`queuedCustoms
      ensures Valid()
      ensures forall s :: s != subject ==> Watchers(watchers, s) == Watchers(old(watchers), s)
      ensures Watchers(watchers, subject) == Without(Watchers(old(watchers), subject), watcher)
      ensures queuedSignals == old(queuedSignals) - {(subject, watcher)}
      ensures queuedCustoms == old(queuedCustoms) - {(subject, watcher)}
    {
      if subject in watchers {
        var kept := Without(watchers[subject], watcher);
        WithoutSingle(watchers[subject], watcher);
        watchers := if kept == [] then watchers - {subject} else watchers[subject := kept];
      }
      queuedSignals := queuedSignals - {(subject, watcher)};
      queuedCustoms := queuedCustoms - {(subject, watcher)};
    }

    method RemoveWatcher(watcher: Path)
      requires Valid()
      modifies this`watchers, this`queuedSignals, this`queuedCustoms
      ensures Valid()
      ensures forall s :: Watchers(watchers, s) == Without(Watchers(old(watchers), s), watcher)
      ensures forall q :: q in queuedSignals <==> q in old(queuedSignals) && q.1 != watcher
      ensures forall q :: q in queuedCustoms <==> q in old(queuedCustoms) && q.1 != watcher
    {
      forall s | s in watchers ensures Single(Without(watchers[s], watcher)) {
        WithoutSingle(watchers[s], watcher);
      }
      watchers := map s | s in watchers && Without(watchers[s], watcher) != [] :: Without(watchers[s], watcher);
      queuedSignals := set q | q in queuedSignals && q.1 != watcher;
      queuedCustoms := set q | q in queuedCustoms && q.1 != watcher;
    }

    /** Takes out all registrations for the subject, then queues and delivers one notice for each. */
    method Notify(subject: Path)
      requires Valid()
      modifies this
      ensures Valid() && forall s :: Watchers(watchers, s) == if s == subject then [] else Watchers(old(watchers), s)
      ensures notified == old(notified) + Notices(subject, Watchers(old(watchers), subject))
      ensures queuedSignals == old(queuedSignals) + Queued(subject, Watchers(old(watchers), subject), Signal)
      ensures queuedCustoms == old(queuedCustoms) + Queued(subject, Watchers(old(watchers), subject), Custom)
    {
      var regs := Watchers(watchers, subject);
      watchers := watchers - {subject};
      for i := 0 to |regs|
        invariant watchers == old(watchers) - {subject}
        invariant notified == old(notified) + Notices(subject, regs[..i])
        invariant queuedSignals == old(queuedSignals) + Queued(subject, regs[..i], Signal)
        invariant queuedCustoms == old(queuedCustoms) + Queued(subject, regs[..i], Custom)
      {
        NoticeNext(subject, regs, i);
        if regs[i].kind.Signal? {
          queuedSignals := queuedSignals + {(subject, regs[i].watcher)};
        } else {
          queuedCustoms := queuedCustoms + {(subject, regs[i].watcher)};
        }
        notified := notified + [(subject, regs[i])];
      }
      assert regs[..|regs|] == regs;
    }
  }

  function GateOf(signals: set<(Path, Path)>, customs: set<(Path, Path)>, subject: Path, reg: Registration): Outcome {
    var key := (subject, reg.watcher);
    if reg.kind.Signal? then Gate(key in signals, key in customs) else Gate(key in customs, key in signals)
  }

  function Notices(subject: Path, regs: seq<Registration>): seq<(Path, Registration)> {
    seq(|regs|, i requires 0 <= i < |regs| => (subject, regs[i]))
  }

  function Queued(subject: Path, regs: seq<Registration>, kind: Kind): set<(Path, Path)> {
    set r | r in regs && r.kind == kind :: (subject, r.watcher)
  }

  lemma NoticeNext(subject: Path, regs: seq<Registration>, i: nat)
    requires i < |regs|
    ensures Notices(subject, regs[..i + 1]) == Notices(subject, regs[..i]) + [(subject, regs[i])]
    ensures forall kind :: kind == regs[i].kind ==>
      Queued(subject, regs[..i + 1], kind) == Queued(subject, regs[..i], kind) + {(subject, regs[i].watcher)}
    ensures forall kind :: kind != regs[i].kind ==> Queued(subject, regs[..i + 1], kind) == Queued(subject, regs[..i], kind)
  {
    assert regs[..i + 1] == regs[..i] + [regs[i]];
  }
}
