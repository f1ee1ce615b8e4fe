/** One subject and any number of watchers: every interleaving of registering, terminating, notifying
    and withdrawing, step by step between locks. */
module DeathWatchRuns {
  import opened Ids
  import opened DeathWatch

  datatype Phase =
    | Entering(reg: Registration)                  // about to read the termination latch
    | SameGate(reg: Registration, seen: bool)      // about to look for a queued notice of its kind
    | OtherGate(reg: Registration, seen: bool)     // about to look for a queued notice of the other kind
    | Registering(reg: Registration, seen: bool)   // about to register under the lock
    | Rechecking                                   // about to read the latch again
    | Taking                                       // about to take all registrations out
    | Queueing(batch: seq<Registration>)           // about to queue the next notice
    | Telling(batch: seq<Registration>)            // about to deliver the next notice

  datatype State = State(
    latch: bool,
    regs: seq<Registration>,
    signals: set<Path>,
    customs: set<Path>,
    threads: map<nat, Phase>,
    used: set<nat>,
    registered: set<Registration>,
    told: seq<Registration>,
    withdrawn: set<Registration>)

  datatype Action =
    | Watch(pid: nat, reg: Registration)
    | CheckLatch(pid: nat)
    | CheckSame(pid: nat)
    | CheckOther(pid: nat)
    | Register(pid: nat)
    | Recheck(pid: nat)
    | Terminate(pid: nat)
    | Take(pid: nat)
    | Queue(pid: nat)
    | Tell(pid: nat)
    | Unwatch(watcher: Path)
    | TakeQueued(watcher: Path, kind: Kind)

  // ----- Steps -----

  predicate Enabled(x: State, a: Action) {
    match a
    case Watch(p, reg) => p !in x.threads && reg.id !in x.used
    case Terminate(p) => p !in x.threads
    case CheckLatch(p) => p in x.threads && x.threads[p].Entering?
    case CheckSame(p) => p in x.threads && x.threads[p].SameGate?
    case CheckOther(p) => p in x.threads && x.threads[p].OtherGate?
    case Register(p) => p in x.threads && x.threads[p].Registering?
    case Recheck(p) => p in x.threads && x.threads[p].Rechecking?
    case Take(p) => p in x.threads && x.threads[p].Taking?
    case Queue(p) => p in x.threads && x.threads[p].Queueing?
    case Tell(p) => p in x.threads && x.threads[p].Telling? && x.threads[p].batch != []
    case Unwatch(_) => true
    case TakeQueued(_, _) => true
  }

  function Moved(x: State, p: nat, phase: Phase): State {
    x.(threads := x.threads[p := phase])
  }

  function Gone(x: State, p: nat): State {
    x.(threads := x.threads - {p})
  }

  function QueuedOf(x: State, kind: Kind): set<Path> {
    if kind.Signal? then x.signals else x.customs
  }

  function Other(kind: Kind): Kind {
    if kind.Signal? then Custom else Signal
  }

  /** After a request that did not fail: notify if the latch was seen, look again otherwise. */
  function After(seen: bool): Phase {
    if seen then Taking else Rechecking
  }

  /** A watching thread's steps. */
  function Watched(x: State, a: Action): State
    requires Enabled(x, a) && Watches(a)
  {
    match a
    case Watch(p, reg) => Moved(x.(used := x.used + {reg.id}), p, Entering(reg))
    case CheckLatch(p) => Moved(x, p, SameGate(x.threads[p].reg, x.latch))
    case CheckSame(p) =>
      var t := x.threads[p];
      if t.reg.watcher in QueuedOf(x, t.reg.kind) then Moved(x, p, After(t.seen)) else Moved(x, p, OtherGate(t.reg, t.seen))
    case CheckOther(p) =>
      var t := x.threads[p];
      if t.reg.watcher in QueuedOf(x, Other(t.reg.kind)) then Gone(x, p) else Moved(x, p, Registering(t.reg, t.seen))
    case Register(p) =>
      var t := x.threads[p];
      (match Admission(x.regs, t.reg)
       case Accepted => Moved(x.(regs := x.regs + [t.reg], registered := x.registered + {t.reg}), p, After(t.seen))
       case Ignored => Moved(x, p, After(t.seen))
       case AlreadyWatching => Gone(x, p))
    case Recheck(p) => if x.latch then Moved(x, p, Taking) else Gone(x, p)
  }

  predicate Watches(a: Action) {
    a.Watch? || a.CheckLatch? || a.CheckSame? || a.CheckOther? || a.Register? || a.Recheck?
  }

  /** Terminating, notifying and withdrawing. */
  function Notified(x: State, a: Action): State
    requires Enabled(x, a) && !Watches(a)
  {
    match a
    case Terminate(p) => Moved(x.(latch := true), p, Taking)
    case Take(p) => Moved(x.(regs := []), p, Queueing(x.regs))
    case Queue(p) =>
      var batch := x.threads[p].batch;
      if batch == [] then Gone(x, p)
      else if batch[0].kind.Signal? then Moved(x.(signals := x.signals + {batch[0].watcher}), p, Telling(batch))
      else Moved(x.(customs := x.customs + {batch[0].watcher}), p, Telling(batch))
    case Tell(p) =>
      var batch := x.threads[p].batch;
      Moved(x.(told := x.told + [batch[0]]), p, Queueing(batch[1..]))
    case Unwatch(w) =>
      x.(regs := Without(x.regs, w), withdrawn := x.withdrawn + set r | r in x.regs && r.watcher == w)
    case TakeQueued(w, kind) =>
      if kind.Signal? then x.(signals := x.signals - {w}) else x.(customs := x.customs - {w})
  }

  function Next(x: State, a: Action): State
    requires Enabled(x, a)
  {
    if Watches(a) then Watched(x, a) else Notified(x, a)
  }

  const START := State(false, [], {}, {}, map[], {}, {}, [], {})

  ghost predicate Execution(states: seq<State>, actions: seq<Action>) {
    && |states| == |actions| + 1 && states[0] == START
    && forall i :: 0 <= i < |actions| ==> Enabled(states[i], actions[i]) && states[i + 1] == Next(states[i], actions[i])
  }

  // ----- Where a registration can be -----

  predicate Pending(x: State, p: nat, r: Registration) {
    && p in x.threads
    && (x.threads[p].Entering? || x.threads[p].SameGate? || x.threads[p].OtherGate? || x.threads[p].Registering?)
    && x.threads[p].reg == r
  }

  function Batch(phase: Phase): seq<Registration> {
    if phase.Queueing? || phase.Telling? then phase.batch else []
  }

  predicate Carried(x: State, p: nat, r: Registration) {
    p in x.threads && r in Batch(x.threads[p])
  }

  /** Requests are told apart, and none of them is registered before its turn. */
  ghost predicate Fresh(x: State) {
    && (forall p, r :: Pending(x, p, r) ==> r.id in x.used && r !in x.registered)
    && (forall p, q, r :: Pending(x, p, r) && Pending(x, q, r) ==> p == q)
    && forall r :: r in x.registered ==> r.id in x.used
  }

  /** No list holds a registration twice. */
  ghost predicate Listed(x: State) {
    && Distinct(x.regs) && Distinct(x.told)
    && forall p :: p in x.threads ==> Distinct(Batch(x.threads[p]))
  }

  /** Whatever is somewhere was registered, and is in one place only. */
  ghost predicate Apart(x: State) {
    && (forall r :: r in x.regs ==> r in x.registered && r !in x.told && r !in x.withdrawn)
    && (forall p, r :: Carried(x, p, r) ==> r in x.registered && r !in x.regs && r !in x.told && r !in x.withdrawn)
    && (forall p, q, r :: Carried(x, p, r) && Carried(x, q, r) ==> p == q)
    && forall r :: (r in x.told ==> r in x.registered && r !in x.withdrawn) && (r in x.withdrawn ==> r in x.registered)
  }

  ghost predicate CarriedBySomeone(x: State, r: Registration) {
    exists p :: Carried(x, p, r)
  }

  /** Whatever was registered is somewhere. */
  ghost predicate Somewhere(x: State) {
    forall r :: r in x.registered ==> r in x.regs || CarriedBySomeone(x, r) || r in x.told || r in x.withdrawn
  }

  predicate Notifies(phase: Phase) {
    phase.Taking? || phase.Queueing? || phase.Telling?
  }

  predicate SawLatch(phase: Phase) {
    (phase.SameGate? || phase.OtherGate? || phase.Registering?) && phase.seen
  }

  /** Nothing is notified before the subject has terminated. */
  ghost predicate Patient(x: State) {
    !x.latch ==> x.told == [] && forall p :: p in x.threads ==> !Notifies(x.threads[p]) && !SawLatch(x.threads[p])
  }

  /** After termination, somebody will take out what is registered. */
  ghost predicate Bound(x: State) {
    exists p :: p in x.threads && (x.threads[p].Taking? || x.threads[p].Rechecking?)
  }

  ghost predicate Committed(x: State) {
    x.latch && x.regs != [] ==> Bound(x)
  }

  ghost predicate Inv(x: State) {
    Fresh(x) && Listed(x) && Apart(x) && Somewhere(x) && Patient(x) && Committed(x) && Single(x.regs)
  }

  // ----- Every step keeps it -----

  ghost predicate OnlyMoved(x: State, y: State, p: nat) {
    forall q :: q != p ==> (q in x.threads <==> q in y.threads) && (q in x.threads ==> x.threads[q] == y.threads[q])
  }

  function BatchAt(x: State, p: nat): seq<Registration> {
    if p in x.threads then Batch(x.threads[p]) else []
  }

  lemma Others(x: State, y: State, p: nat)
    requires OnlyMoved(x, y, p)
    ensures forall q, r :: q != p ==> (Pending(x, q, r) <==> Pending(y, q, r))
    ensures forall q, r :: q != p ==> (Carried(x, q, r) <==> Carried(y, q, r))
    ensures forall r :: r in BatchAt(x, p) <==> Carried(x, p, r)
    ensures forall r :: r in BatchAt(y, p) <==> Carried(y, p, r)
  {
  }

  /** What is carried stays carried unless the moving thread put it down. */
  lemma StillCarried(x: State, y: State, p: nat)
    requires OnlyMoved(x, y, p)
    ensures forall r :: CarriedBySomeone(x, r) && r !in BatchAt(x, p) ==> CarriedBySomeone(y, r)
    ensures forall r :: r in BatchAt(y, p) ==> CarriedBySomeone(y, r)
  {
    Others(x, y, p);
    forall r | CarriedBySomeone(x, r) && r !in BatchAt(x, p) ensures CarriedBySomeone(y, r) {
      var q :| Carried(x, q, r);
      assert Carried(y, q, r);
    }
    forall r | r in BatchAt(y, p) ensures CarriedBySomeone(y, r) {
      assert Carried(y, p, r);
    }
  }

  predicate IsBound(x: State, p: nat) {
    p in x.threads && (x.threads[p].Taking? || x.threads[p].Rechecking?)
  }

  lemma StillBound(x: State, y: State, p: nat)
    requires Bound(x) && OnlyMoved(x, y, p) && (IsBound(x, p) ==> IsBound(y, p))
    ensures Bound(y)
  {
    var q :| q in x.threads && (x.threads[q].Taking? || x.threads[q].Rechecking?);
    assert IsBound(x, q);
    assert IsBound(y, q);
  }

  lemma NowBound(x: State, p: nat)
    requires IsBound(x, p)
    ensures Bound(x)
  {
  }

  /** A step that moves no registration. */
  lemma QuietKeeps(x: State, y: State, p: nat)
    requires Inv(x) && OnlyMoved(x, y, p) && BatchAt(y, p) == BatchAt(x, p)
    requires y.latch == x.latch && y.regs == x.regs && y.used == x.used
    requires y.registered == x.registered && y.told == x.told && y.withdrawn == x.withdrawn
    requires forall r :: Pending(y, p, r) ==> Pending(x, p, r)
    requires !x.latch && p in y.threads ==> !Notifies(y.threads[p]) && !SawLatch(y.threads[p])
    requires x.latch && IsBound(x, p) ==> IsBound(y, p)
    ensures Inv(y)
  {
    hide Pending, Carried, CarriedBySomeone, Bound, Notifies, SawLatch, Single;
    Others(x, y, p);
    StillCarried(x, y, p);
    if x.latch && x.regs != [] {
      StillBound(x, y, p);
    }
  }

  lemma WatchKeeps(x: State, p: nat, reg: Registration)
    requires Inv(x) && Enabled(x, Watch(p, reg))
    ensures Inv(Next(x, Watch(p, reg)))
  {
    hide Carried, CarriedBySomeone, Bound, Distinct, Single;
    var y := Next(x, Watch(p, reg));
    Others(x, y, p);
    StillCarried(x, y, p);
    if x.latch && x.regs != [] {
      StillBound(x, y, p);
    }
  }

  lemma RegisterKeeps(x: State, p: nat)
    requires Inv(x) && Enabled(x, Register(p)) && Admission(x.regs, x.threads[p].reg).Accepted?
    ensures Inv(Next(x, Register(p)))
  {
    hide Carried, CarriedBySomeone, Bound, Find, Apart, Somewhere, Listed;
    var y := Next(x, Register(p));
    assert Pending(x, p, x.threads[p].reg);
    Others(x, y, p);
    RegisterPlaces(x, p);
    NowBound(y, p);
  }

  lemma RegisterPlaces(x: State, p: nat)
    requires Listed(x) && Apart(x) && Somewhere(x) && Single(x.regs) && Enabled(x, Register(p))
    requires Admission(x.regs, x.threads[p].reg).Accepted? && x.threads[p].reg !in x.registered
    ensures var y := Next(x, Register(p)); Listed(y) && Apart(y) && Somewhere(y)
  {
    hide Carried, CarriedBySomeone, Find;
    var y := Next(x, Register(p));
    Others(x, y, p);
    StillCarried(x, y, p);
  }

  lemma TerminateKeeps(x: State, p: nat)
    requires Inv(x) && Enabled(x, Terminate(p))
    ensures Inv(Next(x, Terminate(p)))
  {
    hide Pending, Carried, CarriedBySomeone, Bound, Single;
    var y := Next(x, Terminate(p));
    assert forall r :: !Pending(y, p, r) by { NotPending(y, p); }
    Others(x, y, p);
    StillCarried(x, y, p);
    NowBound(y, p);
  }

  lemma NotPending(x: State, p: nat)
    requires p in x.threads && (Notifies(x.threads[p]) || x.threads[p].Rechecking?)
    ensures forall r :: !Pending(x, p, r)
  {
  }

  lemma TakeKeeps(x: State, p: nat)
    requires Inv(x) && Enabled(x, Take(p))
    ensures Inv(Next(x, Take(p)))
  {
    hide Pending, Carried, CarriedBySomeone, Bound;
    var y := Next(x, Take(p));
    assert forall r :: !Pending(y, p, r) by { NotPending(y, p); }
    Others(x, y, p);
    StillCarried(x, y, p);
  }

  lemma TellKeeps(x: State, p: nat)
    requires Inv(x) && Enabled(x, Tell(p))
    ensures Inv(Next(x, Tell(p)))
  {
    hide Pending, Carried, CarriedBySomeone, Bound, Single, Listed, Apart, Somewhere;
    var y := Next(x, Tell(p));
    assert forall r :: !Pending(y, p, r) by { NotPending(y, p); }
    Others(x, y, p);
    TellApart(x, p);
    TellSomewhere(x, p);
    if x.latch && x.regs != [] {
      StillBound(x, y, p);
    }
  }

  lemma TellApart(x: State, p: nat)
    requires Listed(x) && Apart(x) && Enabled(x, Tell(p))
    ensures Listed(Next(x, Tell(p))) && Apart(Next(x, Tell(p)))
  {
    var y := Next(x, Tell(p));
    var batch := x.threads[p].batch;
    Others(x, y, p);
    assert forall r :: r in batch <==> r == batch[0] || r in batch[1..];
    assert Carried(x, p, batch[0]);
  }

  lemma TellSomewhere(x: State, p: nat)
    requires Somewhere(x) && Enabled(x, Tell(p))
    ensures Somewhere(Next(x, Tell(p)))
  {
    hide Carried, CarriedBySomeone;
    var y := Next(x, Tell(p));
    var batch := x.threads[p].batch;
    StillCarried(x, y, p);
    assert forall r :: r in batch <==> r == batch[0] || r in batch[1..];
  }

  lemma UnwatchKeeps(x: State, w: Path)
    requires Inv(x)
    ensures Inv(Next(x, Unwatch(w)))
  {
    hide Pending, Bound;
    var y := Next(x, Unwatch(w));
    WithoutSingle(x.regs, w);
    forall p, r ensures Pending(x, p, r) <==> Pending(y, p, r) { SamePending(x, y, p, r); }
    forall p, r ensures Carried(x, p, r) <==> Carried(y, p, r) { }
    forall r | CarriedBySomeone(x, r) ensures CarriedBySomeone(y, r) {
      var p :| Carried(x, p, r);
      assert Carried(y, p, r);
    }
    if x.latch && y.regs != [] {
      assert y.regs[0] in x.regs;
      SameBound(x, y);
    }
  }

  lemma SamePending(x: State, y: State, p: nat, r: Registration)
    requires x.threads == y.threads
    ensures Pending(x, p, r) <==> Pending(y, p, r)
  {
  }

  lemma SameBound(x: State, y: State)
    requires Bound(x) && x.threads == y.threads
    ensures Bound(y)
  {
  }

  /** The steps of a watching thread that register nothing. */
  lemma QuietWatch(x: State, a: Action)
    requires Inv(x) && Enabled(x, a) && Watches(a) && !a.Watch?
    requires a.Register? ==> !Admission(x.regs, x.threads[a.pid].reg).Accepted?
    ensures Inv(Watched(x, a))
  {
    hide Inv, Admission, QueuedOf;
    Latched(x);
    QuietKeeps(x, Watched(x, a), a.pid);
  }

  lemma QuietQueue(x: State, a: Action)
    requires Inv(x) && Enabled(x, a) && (a.Queue? || a.TakeQueued?)
    ensures Inv(Notified(x, a))
  {
    hide Inv;
    Latched(x);
    QuietKeeps(x, Notified(x, a), if a.Queue? then a.pid else 0);
  }

  lemma StepKeeps(x: State, a: Action)
    requires Inv(x) && Enabled(x, a)
    ensures Inv(Next(x, a))
  {
    hide Inv, Watched, Notified;
    match a {
      case Watch(p, reg) => WatchKeeps(x, p, reg);
      case Terminate(p) => TerminateKeeps(x, p);
      case Take(p) => TakeKeeps(x, p);
      case Tell(p) => TellKeeps(x, p);
      case Unwatch(w) => UnwatchKeeps(x, w);
      case Queue(_) => QuietQueue(x, a);
      case TakeQueued(_, _) => QuietQueue(x, a);
      case Register(p) =>
        if Admission(x.regs, x.threads[p].reg).Accepted? {
          RegisterKeeps(x, p);
        } else {
          QuietWatch(x, a);
        }
      case _ => QuietWatch(x, a);
    }
  }

  lemma Latched(x: State)
    requires Inv(x)
    ensures forall p :: p in x.threads && SawLatch(x.threads[p]) ==> x.latch
    ensures forall p :: p in x.threads && Notifies(x.threads[p]) ==> x.latch
  {
  }

  lemma {:induction false} ExecutionKeeps(states: seq<State>, actions: seq<Action>, n: nat)
    requires Execution(states, actions) && n < |states|
    ensures Inv(states[n])
  {
    if n > 0 {
      hide Inv, Next, Enabled;
      ExecutionKeeps(states, actions, n - 1);
      StepKeeps(states[n - 1], actions[n - 1]);
    }
  }

  // ----- The theorems -----

  /** In every interleaving each registration made is told at most once, never before the subject has
      terminated, never after it was withdrawn, and no watcher is registered twice at a time. */
  lemma ToldAtMostOnce(states: seq<State>, actions: seq<Action>, n: nat)
    requires Execution(states, actions) && n < |states|
    ensures var x := states[n];
      && Distinct(x.told) && Single(x.regs)
      && (forall r :: r in x.told ==> r in x.registered && r !in x.withdrawn && r !in x.regs)
      && (x.told != [] ==> x.latch)
  {
    hide Execution;
    ExecutionKeeps(states, actions, n);
  }

  /** In every interleaving, once the subject has terminated and all threads are through, every registration
      ever made was told exactly once unless it was withdrawn first. */
  lemma EveryoneTold(states: seq<State>, actions: seq<Action>, n: nat)
    requires Execution(states, actions) && n < |states|
    requires states[n].latch && states[n].threads == map[]
    ensures states[n].regs == []
    ensures forall r :: r in states[n].registered ==> (r in states[n].told <==> r !in states[n].withdrawn)
  {
    hide Execution;
    ExecutionKeeps(states, actions, n);
    assert !Bound(states[n]);
    forall r ensures !CarriedBySomeone(states[n], r) {
    }
  }

  /** A notice is delivered only after it was queued for its watcher in its own kind, and then for that registration. */
  lemma QueuedThenTold(x: State, p: nat)
    requires Enabled(x, Queue(p)) && x.threads[p].batch != []
    ensures var first, y := x.threads[p].batch[0], Next(x, Queue(p));
      && QueuedOf(y, first.kind) == QueuedOf(x, first.kind) + {first.watcher}
      && QueuedOf(y, Other(first.kind)) == QueuedOf(x, Other(first.kind)) && y.told == x.told
      && Enabled(y, Tell(p)) && Next(y, Tell(p)).told == x.told + [first]
  {
  }

  /** In every interleaving, while a registration waits after termination some thread is bound to take it out. */
  lemma NoMissedTermination(states: seq<State>, actions: seq<Action>, n: nat)
    requires Execution(states, actions) && n < |states|
    ensures states[n].latch && states[n].regs != [] ==> Bound(states[n])
  {
    hide Execution;
    ExecutionKeeps(states, actions, n);
  }
}
