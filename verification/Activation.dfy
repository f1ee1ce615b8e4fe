/** How an actor gets its turn: threads that put messages into its mailbox, the flag that says an
    activation is out, the dispatcher queue, and the workers, in every interleaving of their steps. */
module Activation {
  import opened Ids
  import opened Mailboxes

  /** Where a thread is, as far as this actor is concerned. */
  datatype Phase =
    | Spawning      // made the actor, has not installed its scheduler yet
    | Stopping      // set the stopped flag, has not enqueued the stop message yet
    | Calling       // about to try to set the scheduled flag
    | Won           // set the flag, has not handed the activation to the dispatcher yet
    | Refused       // the dispatcher refused, the flag is still set
    | Running       // a worker processing messages
    | Closing       // a worker that closed the mailbox, not terminated yet
    | Leaving       // a worker done with messages, the flag is still set
    | Cleared       // a worker that cleared the flag, about to look at the stopped flag
    | Probing       // a worker about to look at the mailbox

  datatype State<M> = State(
    box: Box<M>,
    threads: map<nat, Phase>,
    queued: nat,
    scheduled: bool,
    accepting: bool,
    stopped: bool,
    terminated: bool)

  datatype Action<M> =
    | EnqueueUser(pid: nat, capacity: Option<nat>, envelope: Envelope<M>)
    | Prepend(pid: nat, messages: seq<M>)
    | EnqueueSystem(pid: nat, message: SystemMessage)
    | RequestStop(pid: nat)
    | StopQueue
    | Install(pid: nat)
    | EnqueueStop(pid: nat)
    | TrySchedule(pid: nat)
    | Execute(pid: nat)
    | Unset(pid: nat)
    | Pop(pid: nat)
    | Process(pid: nat, stops: bool)
    | Finish(pid: nat)
    | Terminate(pid: nat)
    | Clear(pid: nat)
    | CheckStopped(pid: nat)
    | CheckMessages(pid: nat)

  // ----- Steps -----

  /** Which steps a thread in some phase can take; entering threads are new. */
  predicate Enabled<M>(x: State<M>, a: Action<M>) {
    match a
    case EnqueueUser(p, _, _) => p !in x.threads
    case Prepend(p, _) => p !in x.threads
    case EnqueueSystem(p, _) => p !in x.threads
    case RequestStop(p) => p !in x.threads
    case StopQueue => true
    case Install(p) => At(x, p, Spawning)
    case EnqueueStop(p) => At(x, p, Stopping)
    case TrySchedule(p) => At(x, p, Calling)
    case Execute(p) => At(x, p, Won)
    case Unset(p) => At(x, p, Refused)
    case Pop(p) => p !in x.threads && x.queued > 0
    case Process(p, _) => At(x, p, Running)
    case Finish(p) => At(x, p, Running)
    case Terminate(p) => At(x, p, Closing)
    case Clear(p) => At(x, p, Leaving)
    case CheckStopped(p) => At(x, p, Cleared)
    case CheckMessages(p) => At(x, p, Probing)
  }

  predicate At<M>(x: State<M>, p: nat, phase: Phase) {
    p in x.threads && x.threads[p] == phase
  }

  function Moved<M>(x: State<M>, p: nat, phase: Phase): State<M> {
    x.(threads := x.threads[p := phase])
  }

  function Gone<M>(x: State<M>, p: nat): State<M> {
    x.(threads := x.threads - {p})
  }

  /** A thread that put something into the mailbox goes on to schedule the actor if it has to. */
  function Put<M>(x: State<M>, p: nat, box: Box<M>, schedules: bool): State<M> {
    var y := x.(box := box);
    if schedules then Moved(y, p, Calling) else Gone(y, p)
  }

  /** Threads that bring something to the actor. */
  function Brought<M>(x: State<M>, a: Action<M>): State<M>
    requires Enabled(x, a) && Brings(a)
  {
    match a
    case EnqueueUser(p, capacity, e) =>
      (match UserAdded(x.box, capacity, e)
       case Err(refusal) => if refusal.WasClosed? then x.(stopped := true) else x
       case Ok(after) => Put(x, p, after, Schedules(x.box)))
    case Prepend(p, messages) =>
      (match Prepended(x.box, messages)
       case Err(_) => x
       case Ok(after) => Put(x, p, after, messages != [] && Schedules(x.box)))
    case EnqueueSystem(p, m) => Put(x, p, SystemAdded(x.box, m), !x.box.closed && Schedules(x.box))
    case EnqueueStop(p) => Put(x, p, SystemAdded(x.box, Stop), !x.box.closed && Schedules(x.box))
    case RequestStop(p) => if x.stopped then x else Moved(x.(stopped := true), p, Stopping)
  }

  predicate Brings<M>(a: Action<M>) {
    a.EnqueueUser? || a.Prepend? || a.EnqueueSystem? || a.EnqueueStop? || a.RequestStop?
  }

  /** Scheduling: setting the flag, handing the activation over, taking it back. */
  function Passed<M>(x: State<M>, a: Action<M>): State<M>
    requires Enabled(x, a) && Passes(a)
  {
    match a
    case Install(p) => Moved(x.(box := x.box.(wired := true)), p, Calling)
    case TrySchedule(p) => if x.scheduled then Gone(x, p) else Moved(x.(scheduled := true), p, Won)
    case Execute(p) => if x.accepting then Gone(x.(queued := x.queued + 1), p) else Moved(x, p, Refused)
    case Unset(p) => Gone(x.(scheduled := false), p)
    case StopQueue => x.(accepting := false)
  }

  predicate Passes<M>(a: Action<M>) {
    a.Install? || a.TrySchedule? || a.Execute? || a.Unset? || a.StopQueue?
  }

  /** A worker's turn. An activation of a terminated actor returns at once. */
  function Worked<M>(x: State<M>, a: Action<M>): State<M>
    requires Enabled(x, a) && !Brings(a) && !Passes(a)
  {
    match a
    case Pop(p) => Moved(x.(queued := x.queued - 1), p, if x.terminated then Leaving else Running)
    case Process(p, stops) =>
      var (box, next) := Taken(x.box);
      x.(box := box, stopped := x.stopped || stops || next == Some(System(Stop)) || next == Some(Closed))
    case Finish(p) =>
      if x.stopped then Moved(x.(box := ClosedBox(x.box)), p, Closing) else Moved(x, p, Leaving)
    case Terminate(p) => Moved(x.(terminated := true, box := x.box.(wired := false)), p, Leaving)
    case Clear(p) => Moved(x.(scheduled := false), p, Cleared)
    case CheckStopped(p) =>
      if x.terminated then Gone(x, p) else Moved(x, p, if x.stopped then Calling else Probing)
    case CheckMessages(p) => if Idle(x.box) then Gone(x, p) else Moved(x, p, Calling)
  }

  function Next<M>(x: State<M>, a: Action<M>): State<M>
    requires Enabled(x, a)
  {
    if Brings(a) then Brought(x, a) else if Passes(a) then Passed(x, a) else Worked(x, a)
  }

  /** A new actor whose spawning thread has still to install its scheduler. */
  ghost predicate Initial<M>(x: State<M>) {
    exists p: nat :: x == State(New(), map[p := Spawning], 0, false, true, false, false)
  }

  ghost predicate Execution<M>(states: seq<State<M>>, actions: seq<Action<M>>) {
    && |states| == |actions| + 1 && Initial(states[0])
    && forall i :: 0 <= i < |actions| ==> Enabled(states[i], actions[i]) && states[i + 1] == Next(states[i], actions[i])
  }

  // ----- The flag stands for the one activation -----

  /** Phases in which a thread has the activation. */
  predicate Holds(phase: Phase) {
    phase.Won? || phase.Refused? || phase.Running? || phase.Closing? || phase.Leaving?
  }

  ghost predicate Holder<M>(x: State<M>, p: nat) {
    p in x.threads && Holds(x.threads[p])
  }

  /** The activation is with at most one thread or once in the queue, and then exactly the flag is set. */
  ghost predicate OneActivation<M>(x: State<M>) {
    && x.queued <= 1
    && (forall p, q :: Holder(x, p) && Holder(x, q) ==> p == q)
    && (x.queued == 1 ==> forall p :: !Holder(x, p))
    && (x.scheduled <==> x.queued == 1 || exists p :: Holder(x, p))
  }

  // ----- Somebody always takes care -----

  ghost predicate Anyone<M>(x: State<M>, phase: Phase) {
    exists p :: At(x, p, phase)
  }

  /** An activation is queued, or a thread runs it or is bound to schedule or recheck. */
  ghost predicate Attended<M>(x: State<M>) {
    x.queued > 0 || exists p :: p in x.threads && Attends(x.threads[p])
  }

  predicate Attends(phase: Phase) {
    !phase.Refused? && !phase.Stopping?
  }

  /** A stop will be seen: by its requester, in the mailbox, or by the worker that is running. */
  ghost predicate StopSeen<M>(x: State<M>) {
    Anyone(x, Stopping) || x.box.system != [] || Anyone(x, Running) || Anyone(x, Closing)
  }

  ghost predicate Care<M>(x: State<M>) {
    && (x.accepting ==> !Anyone(x, Refused))
    && (x.accepting && !x.terminated && !Idle(x.box) ==> Attended(x))
    && (!x.terminated && x.stopped ==> StopSeen(x))
    && (x.box.closed && !x.terminated ==> Anyone(x, Closing))
    && (x.box.closed ==> Idle(x.box) && x.stopped)
    && (x.terminated ==> x.box.closed)
    && (!x.box.wired && !x.terminated ==> Anyone(x, Spawning))
    && (Anyone(x, Running) || Anyone(x, Closing) ==> !x.terminated)
    && (Anyone(x, Closing) ==> x.box.closed)
  }

  // ----- Every step keeps both -----

  /** Only thread `p` differs between two states. */
  ghost predicate OnlyMoved<M>(x: State<M>, y: State<M>, p: nat) {
    forall q :: q != p ==> (q in x.threads <==> q in y.threads) && (q in x.threads ==> x.threads[q] == y.threads[q])
  }

  /** Threads other than the one that moved are where they were. */
  lemma Others<M>(x: State<M>, y: State<M>, p: nat)
    requires OnlyMoved(x, y, p)
    ensures forall phase :: Anyone(x, phase) && !At(x, p, phase) ==> Anyone(y, phase)
    ensures forall phase :: Anyone(y, phase) && !At(y, p, phase) ==> Anyone(x, phase)
    ensures forall q :: q != p ==> (Holder(x, q) <==> Holder(y, q))
    ensures forall phase :: At(y, p, phase) ==> Anyone(y, phase)
  {
    forall phase | Anyone(x, phase) && !At(x, p, phase) ensures Anyone(y, phase) {
      var q :| At(x, q, phase);
      assert At(y, q, phase);
    }
    forall phase | Anyone(y, phase) && !At(y, p, phase) ensures Anyone(x, phase) {
      var q :| At(y, q, phase);
      assert At(x, q, phase);
    }
  }

  /** A step in which the moving thread neither gains nor loses the activation. */
  lemma SameHolder<M>(x: State<M>, y: State<M>, p: nat)
    requires OneActivation(x) && OnlyMoved(x, y, p) && y.queued == x.queued && y.scheduled == x.scheduled
    requires Holder(x, p) <==> Holder(y, p)
    ensures OneActivation(y)
  {
    Others(x, y, p);
    if h :| Holder(x, h) {
      assert Holder(y, h);
    }
    if h :| Holder(y, h) {
      assert Holder(x, h);
    }
  }

  /** The moving thread takes the activation when nobody has it. */
  lemma NewHolder<M>(x: State<M>, y: State<M>, p: nat)
    requires OneActivation(x) && OnlyMoved(x, y, p) && !Holder(x, p) && Holder(y, p) && y.scheduled
    requires (!x.scheduled && y.queued == x.queued) || (x.queued == 1 && y.queued == 0)
    ensures OneActivation(y)
  {
    Others(x, y, p);
    assert forall q :: Holder(y, q) ==> q == p by {
      forall q | Holder(y, q) ensures q == p {
        assert q != p ==> Holder(x, q);
      }
    }
  }

  /** The moving thread gives the activation up: into the queue, or by clearing the flag. */
  lemma LostHolder<M>(x: State<M>, y: State<M>, p: nat)
    requires OneActivation(x) && OnlyMoved(x, y, p) && Holder(x, p) && !Holder(y, p)
    requires (y.queued == 1 && y.scheduled) || (y.queued == x.queued && !y.scheduled)
    ensures OneActivation(y)
  {
    Others(x, y, p);
    assert forall q :: !Holder(y, q) by {
      forall q ensures !Holder(y, q) {
        assert q != p && Holder(y, q) ==> Holder(x, q);
      }
    }
  }

  lemma PutOne<M>(x: State<M>, p: nat, box: Box<M>, schedules: bool)
    requires OneActivation(x) && !Holder(x, p)
    ensures OneActivation(Put(x, p, box, schedules))
  {
    hide OneActivation;
    SameHolder(x, Put(x, p, box, schedules), p);
  }

  lemma BroughtOne<M>(x: State<M>, a: Action<M>)
    requires OneActivation(x) && Enabled(x, a) && Brings(a)
    ensures OneActivation(Brought(x, a))
  {
    hide OneActivation, UserAdded, Prepended, SystemAdded, Schedules, Put, Moved;
    assert !Holder(x, a.pid);
    match a {
      case EnqueueUser(p, capacity, e) =>
        var added := UserAdded(x.box, capacity, e);
        if added.Ok? {
          PutOne(x, p, added.value, Schedules(x.box));
        } else {
          SameHolder(x, Brought(x, a), p);
        }
      case Prepend(p, messages) =>
        var added := Prepended(x.box, messages);
        if added.Ok? {
          PutOne(x, p, added.value, messages != [] && Schedules(x.box));
        }
      case EnqueueSystem(p, m) => PutOne(x, p, SystemAdded(x.box, m), !x.box.closed && Schedules(x.box));
      case EnqueueStop(p) => PutOne(x, p, SystemAdded(x.box, Stop), !x.box.closed && Schedules(x.box));
      case RequestStop(p) => MovedOne(x.(stopped := true), x, p);
    }
  }

  lemma MovedOne<M>(y: State<M>, x: State<M>, p: nat)
    requires OneActivation(x) && !Holder(x, p) && y == x.(stopped := true)
    ensures OneActivation(Moved(y, p, Stopping))
  {
    hide OneActivation;
    SameHolder(x, Moved(y, p, Stopping), p);
  }

  lemma PassedOne<M>(x: State<M>, a: Action<M>)
    requires OneActivation(x) && Enabled(x, a) && Passes(a)
    ensures OneActivation(Passed(x, a))
  {
    hide OneActivation;
    var y := Passed(x, a);
    OneFacts(x);
    match a {
      case TrySchedule(p) => if x.scheduled { SameHolder(x, y, p); } else { NewHolder(x, y, p); }
      case Execute(p) => assert Holder(x, p); if x.accepting { LostHolder(x, y, p); } else { SameHolder(x, y, p); }
      case Unset(p) => LostHolder(x, y, p);
      case Install(p) => SameHolder(x, y, p);
      case StopQueue => SameHolder(x, y, 0);
    }
  }

  lemma WorkedOne<M>(x: State<M>, a: Action<M>)
    requires OneActivation(x) && Enabled(x, a) && !Brings(a) && !Passes(a)
    ensures OneActivation(Worked(x, a))
  {
    hide OneActivation, Taken, ClosedBox, Idle;
    var y := Worked(x, a);
    OneFacts(x);
    if a.Pop? {
      NewHolder(x, y, a.pid);
    } else if a.Clear? {
      LostHolder(x, y, a.pid);
    } else {
      SameHolder(x, y, a.pid);
    }
  }

  lemma OneActivationKept<M>(x: State<M>, a: Action<M>)
    requires OneActivation(x) && Enabled(x, a)
    ensures OneActivation(Next(x, a))
  {
    hide OneActivation, Brought, Passed, Worked;
    if Brings(a) {
      BroughtOne(x, a);
    } else if Passes(a) {
      PassedOne(x, a);
    } else {
      WorkedOne(x, a);
    }
  }

  lemma OneFacts<M>(x: State<M>)
    requires OneActivation(x)
    ensures x.queued <= 1 && (x.queued > 0 ==> x.scheduled)
    ensures forall p :: Holder(x, p) ==> x.scheduled && x.queued == 0
  {
  }

  // Attendance

  lemma Attending<M>(x: State<M>, p: nat)
    requires p in x.threads && Attends(x.threads[p])
    ensures Attended(x)
  {
  }

  lemma AnyoneAttends<M>(x: State<M>, phase: Phase)
    requires Anyone(x, phase) && Attends(phase)
    ensures Attended(x)
  {
    var p :| At(x, p, phase);
    Attending(x, p);
  }

  lemma AttendedKept<M>(x: State<M>, y: State<M>, p: nat)
    requires Attended(x) && OnlyMoved(x, y, p) && y.queued >= x.queued
    requires p !in x.threads || !Attends(x.threads[p])
    ensures Attended(y)
  {
    if x.queued == 0 {
      var q :| q in x.threads && Attends(x.threads[q]);
      assert q in y.threads;
    }
  }

  /** If the flag is set and the dispatcher has refused nobody, whoever gives up leaves it attended. */
  lemma FlagAttended<M>(x: State<M>, p: nat)
    requires OneActivation(x) && x.scheduled && !Anyone(x, Refused) && At(x, p, Calling)
    ensures Attended(Gone(x, p))
  {
    if x.queued == 0 {
      var h :| Holder(x, h);
      assert !At(x, h, Refused);
      Attending(Gone(x, p), h);
    }
  }

  /** A message arrives, brought by a new thread or by one that requested a stop. */
  lemma PutCare<M>(x: State<M>, p: nat, box: Box<M>, schedules: bool)
    requires Care(x) && (p !in x.threads || (At(x, p, Stopping) && box.system != []))
    requires !x.box.closed && !box.closed && box.wired == x.box.wired && (x.box.system != [] ==> box.system != [])
    requires if box == x.box then !schedules else schedules == Schedules(x.box)
    ensures Care(Put(x, p, box, schedules))
  {
    hide Attended;
    var y := Put(x, p, box, schedules);
    Others(x, y, p);
    if schedules {
      Attending(y, p);
    } else if !Idle(x.box) && x.accepting && !x.terminated {
      AttendedKept(x, y, p);
    } else if !x.box.wired && !x.terminated {
      AnyoneAttends(y, Spawning);
    }
  }

  /** The stop request of a closed mailbox comes to nothing. */
  lemma LateStopCare<M>(x: State<M>, p: nat)
    requires Care(x) && At(x, p, Stopping) && x.box.closed
    ensures Care(Gone(x, p))
  {
    hide Attended;
    Others(x, Gone(x, p), p);
  }

  lemma StopCare<M>(x: State<M>, p: nat)
    requires Care(x) && p !in x.threads
    ensures Care(Moved(x.(stopped := true), p, Stopping))
    ensures x.box.closed ==> Care(x.(stopped := true))
  {
    hide Attended;
    var y := Moved(x.(stopped := true), p, Stopping);
    Others(x, y, p);
    if x.accepting && !x.terminated && !Idle(x.box) {
      AttendedKept(x, y, p);
    }
    Same(x, x.(stopped := true));
  }

  lemma Same<M>(x: State<M>, y: State<M>)
    requires y.threads == x.threads
    ensures forall phase :: Anyone(x, phase) <==> Anyone(y, phase)
  {
    forall phase ensures Anyone(x, phase) <==> Anyone(y, phase) {
      if q :| At(x, q, phase) {
        assert At(y, q, phase);
      }
      if q :| At(y, q, phase) {
        assert At(x, q, phase);
      }
    }
  }

  lemma GoneAbsent<M>(x: State<M>, p: nat)
    requires p !in x.threads
    ensures Gone(x, p) == x
  {
  }

  lemma BroughtCare<M>(x: State<M>, a: Action<M>)
    requires Care(x) && Enabled(x, a) && Brings(a)
    ensures Care(Brought(x, a))
  {
    hide Care, Moved, Put;
    match a {
      case EnqueueUser(p, capacity, e) =>
        var added := UserAdded(x.box, capacity, e);
        if added.Ok? {
          PutCare(x, p, added.value, Schedules(x.box));
        } else {
          StopCare(x, p);
        }
      case Prepend(p, messages) =>
        var added := Prepended(x.box, messages);
        if added.Ok? {
          assert messages == [] ==> added.value.user == x.box.user;
          assert messages != [] ==> |added.value.user| > |x.box.user|;
          PutCare(x, p, added.value, messages != [] && Schedules(x.box));
        }
      case EnqueueSystem(p, m) => SystemCare(x, p, m);
      case EnqueueStop(p) => SystemCare(x, p, Stop);
      case RequestStop(p) => StopCare(x, p);
    }
  }

  lemma SystemCare<M>(x: State<M>, p: nat, m: SystemMessage)
    requires Care(x) && (p !in x.threads || At(x, p, Stopping))
    ensures Care(Put(x, p, SystemAdded(x.box, m), !x.box.closed && Schedules(x.box)))
  {
    hide Care;
    if x.box.closed {
      if p in x.threads {
        LateStopCare(x, p);
      } else {
        GoneAbsent(x, p);
      }
    } else {
      PutCare(x, p, SystemAdded(x.box, m), Schedules(x.box));
    }
  }

  lemma PassedCare<M>(x: State<M>, a: Action<M>)
    requires OneActivation(x) && Care(x) && Enabled(x, a) && Passes(a)
    ensures Care(Passed(x, a))
  {
    hide Attended, OneActivation;
    var y := Passed(x, a);
    match a {
      case Install(p) => Others(x, y, p); Attending(y, p);
      case TrySchedule(p) =>
        Others(x, y, p);
        if !x.scheduled {
          Attending(y, p);
        } else if x.accepting {
          FlagAttended(x, p);
        }
      case Execute(p) =>
        Others(x, y, p);
        if x.accepting {
          QueuedAttends(y);
        }
      case Unset(p) => Others(x, y, p); assert Anyone(x, Refused);
      case StopQueue => Same(x, y);
    }
  }

  lemma TurnCare<M>(x: State<M>, a: Action<M>)
    requires OneActivation(x) && Care(x) && Enabled(x, a) && (a.Process? || a.Finish? || a.Terminate?)
    ensures Care(Worked(x, a))
  {
    hide Attended, OneActivation;
    var y, p := Worked(x, a), a.pid;
    Others(x, y, p);
    Attending(y, p);
    match a {
      case Process(_, _) => TakenBox(x.box); assert At(y, p, Running);
      case Finish(_) => assert At(x, p, Running);
      case Terminate(_) => assert At(x, p, Closing); LastWorker(x, y, p);
    }
  }

  lemma WorkedCare<M>(x: State<M>, a: Action<M>)
    requires OneActivation(x) && Care(x) && Enabled(x, a) && !Brings(a) && !Passes(a)
    ensures Care(Worked(x, a))
  {
    hide Attended, OneActivation, Taken, ClosedBox;
    if a.Process? || a.Finish? || a.Terminate? {
      TurnCare(x, a);
    } else {
      var y, p := Worked(x, a), a.pid;
      Others(x, y, p);
      if p in y.threads {
        Attending(y, p);
      }
    }
  }

  lemma TakenBox<M>(b: Box<M>)
    ensures Taken(b).0.closed == b.closed && Taken(b).0.wired == b.wired
    ensures Idle(b) ==> Taken(b).0 == b
  {
  }

  /** Two workers are never at the messages at once, so after the last one nobody is. */
  lemma LastWorker<M>(x: State<M>, y: State<M>, p: nat)
    requires OneActivation(x) && Holder(x, p) && OnlyMoved(x, y, p) && At(y, p, Leaving)
    ensures !Anyone(y, Running) && !Anyone(y, Closing)
  {
    forall q ensures !At(y, q, Running) && !At(y, q, Closing) {
      assert q != p ==> !Holder(x, q);
    }
  }

  lemma QueuedAttends<M>(x: State<M>)
    requires x.queued > 0
    ensures Attended(x)
  {
  }

  lemma CareKept<M>(x: State<M>, a: Action<M>)
    requires OneActivation(x) && Care(x) && Enabled(x, a)
    ensures Care(Next(x, a))
  {
    hide OneActivation, Care, Brought, Passed, Worked;
    if Brings(a) {
      BroughtCare(x, a);
    } else if Passes(a) {
      PassedCare(x, a);
    } else {
      WorkedCare(x, a);
    }
  }

  // ----- The theorems -----

  lemma {:induction false} ExecutionKeeps<M>(states: seq<State<M>>, actions: seq<Action<M>>, n: nat)
    requires Execution(states, actions) && n < |states|
    ensures OneActivation(states[n]) && Care(states[n])
  {
    hide OneActivation, Care, Next, Enabled, Initial;
    if n == 0 {
      InitialHolds(states[0]);
    } else {
      ExecutionKeeps(states, actions, n - 1);
      OneActivationKept(states[n - 1], actions[n - 1]);
      CareKept(states[n - 1], actions[n - 1]);
    }
  }

  lemma InitialHolds<M>(x: State<M>)
    requires Initial(x)
    ensures OneActivation(x) && Care(x)
  {
    var p: nat :| x == State(New(), map[p := Spawning], 0, false, true, false, false);
    assert At(x, p, Spawning);
    assert forall q :: q in x.threads ==> q == p;
  }

  /** In every interleaving at most one activation of the actor is queued or running. */
  lemma AtMostOneActivation<M>(states: seq<State<M>>, actions: seq<Action<M>>, n: nat, p: nat, q: nat)
    requires Execution(states, actions) && n < |states|
    ensures var x := states[n];
      && x.queued <= 1
      && (At(x, p, Running) && At(x, q, Running) ==> p == q)
      && (At(x, p, Running) ==> x.queued == 0)
  {
    hide Execution, Care;
    ExecutionKeeps(states, actions, n);
    assert At(states[n], p, Running) ==> Holder(states[n], p);
    assert At(states[n], q, Running) ==> Holder(states[n], q);
  }

  /** In every interleaving, while the actor is not terminated and the dispatcher accepts tasks, an actor
      with a message or a pending stop has an activation queued or running, or some thread is bound to
      schedule it or look again. */
  lemma NoLostWakeup<M>(states: seq<State<M>>, actions: seq<Action<M>>, n: nat)
    requires Execution(states, actions) && n < |states|
    ensures var x := states[n];
      x.accepting && !x.terminated && (!Idle(x.box) || x.stopped) ==> Attended(x) || Anyone(x, Stopping)
  {
    hide Execution, OneActivation, Attended;
    ExecutionKeeps(states, actions, n);
    var x := states[n];
    if Anyone(x, Running) {
      AnyoneAttends(x, Running);
    }
    if Anyone(x, Closing) {
      AnyoneAttends(x, Closing);
    }
  }

  /** When all threads are through and nothing is queued, an accepting dispatcher has left no message
      and no stop request behind. */
  lemma QuietMeansDone<M>(states: seq<State<M>>, actions: seq<Action<M>>, n: nat)
    requires Execution(states, actions) && n < |states|
    requires states[n].threads == map[] && states[n].queued == 0 && states[n].accepting
    ensures Idle(states[n].box) && (states[n].stopped ==> states[n].terminated) && !states[n].scheduled
  {
    hide Execution;
    ExecutionKeeps(states, actions, n);
    NoLostWakeup(states, actions, n);
    assert forall p :: p !in states[n].threads;
  }
}
