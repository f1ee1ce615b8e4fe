/** Whole runs of a shard region: what happens to every message it accepts. */
module RegionRuns {
  import opened Ids
  import opened Loads
  import opened Region

  datatype Op<M> =
    | Route(shard: ShardId, message: M)
    | Host(shard: ShardId)
    | RecordHome(shard: ShardId, region: RegionId)
    | MarkStarted(shard: ShardId)
    | BeginHandoff(shard: ShardId)
    | Handoff(shard: ShardId)
    | MarkStopped(shard: ShardId)
    | MarkRegionStopped(region: RegionId)
    | SetFlags(draining: bool, preparing: bool)

  /** A message taken in, or messages leaving the region: to the local shard, to another region, or
      dropped because their shard is handed off. */
  datatype Fate<M> =
    | Accepted(shard: ShardId, message: M)
    | Delivered(shard: ShardId, messages: seq<M>)
    | Forwarded(shard: ShardId, region: RegionId, messages: seq<M>)
    | Discarded(shard: ShardId, messages: seq<M>)

  function RouteFates<M>(plan: RoutePlan<M>, message: M): seq<Fate<M>> {
    match plan
    case DeliverLocal(s, m) => [Accepted(s, message), Delivered(s, [m])]
    case Forward(s, r, m) => [Accepted(s, message), Forwarded(s, r, [m])]
    case Buffered(s, _) => [Accepted(s, message)]
    case Dropped(_, _, _) => []
  }

  function HostFates<M>(plan: HostPlan<M>): seq<Fate<M>> {
    if plan.AlreadyStarted? then [Delivered(plan.shard, plan.buffered)] else []
  }

  function HomeFates<M>(plan: Result<HomePlan<M>, RouteError>): seq<Fate<M>> {
    match plan
    case Ok(ReplayLocal(s, buffered)) => [Delivered(s, buffered)]
    case Ok(ForwardAll(s, r, buffered)) => [Forwarded(s, r, buffered)]
    case _ => []
  }

  ghost function Applied<M>(v: View<M>, op: Op<M>): (View<M>, seq<Fate<M>>) {
    match op
    case Route(s, m) => var (w, plan) := Routed(v, s, m); (w, RouteFates(plan, m))
    case Host(s) => var (w, plan) := Hosted(v, s); (w, HostFates(plan))
    case RecordHome(s, r) => var (w, plan) := HomeRecorded(v, s, r); (w, HomeFates(plan))
    case MarkStarted(s) => var (w, buffered) := ShardStarted(v, s); (w, [Delivered(s, buffered)])
    case BeginHandoff(s) => (HandoffBegun(v, s).0, [])
    case Handoff(s) => (HandedOff(v, s).0, [Discarded(s, Queue(v, s))])
    case MarkStopped(s) => (ShardStopped(v, s), [])
    case MarkRegionStopped(r) => (RegionStopped(v, r).0, [])
    case SetFlags(draining, preparing) => (v.(draining := draining, preparing := preparing), [])
  }

  ghost function Run<M>(v: View<M>, ops: seq<Op<M>>): (View<M>, seq<Fate<M>>) {
    if ops == [] then (v, [])
    else
      var (mid, fates) := Run(v, ops[..|ops| - 1]);
      var (end, more) := Applied(mid, ops[|ops| - 1]);
      (end, fates + more)
  }

  /** The messages accepted for a shard, in arrival order. */
  function AcceptedFor<M>(fates: seq<Fate<M>>, s: ShardId): seq<M> {
    if fates == [] then []
    else
      var rest := AcceptedFor(fates[..|fates| - 1], s);
      var last := fates[|fates| - 1];
      if last.Accepted? && last.shard == s then rest + [last.message] else rest
  }

  /** The messages of a shard that left the region, in the order they left. */
  function SettledFor<M>(fates: seq<Fate<M>>, s: ShardId): seq<M> {
    if fates == [] then []
    else
      var rest := SettledFor(fates[..|fates| - 1], s);
      var last := fates[|fates| - 1];
      if !last.Accepted? && last.shard == s then rest + last.messages else rest
  }

  // ----- What every reachable state keeps -----

  /** Queues are never empty and never belong to a shard homed elsewhere, together they fit the
      capacity, and no shard is both starting and started or handed off without being started. */
  ghost predicate Sound<M>(v: View<M>) {
    Fitting(v) && v.starting !! v.local && v.handingOff <= v.local
  }

  ghost predicate Fitting<M>(v: View<M>) {
    && Total(v.buffers) <= v.capacity
    && forall s :: s in v.buffers ==> v.buffers[s] != [] && (s in v.homes ==> v.homes[s] == v.self)
  }

  lemma TotalQueued<M>(v: View<M>, s: ShardId, m: M)
    ensures Total(Queued(v, s, m).buffers) == Total(v.buffers) + 1
  {
    var before, after := Lengths(v.buffers), Lengths(Queued(v, s, m).buffers);
    assert after - {s} == before - {s};
    SumSplit(Count, after, s);
    if s in v.buffers {
      SumSplit(Count, before, s);
    } else {
      assert before - {s} == before;
    }
  }

  lemma TotalDrained<M>(v: View<M>, s: ShardId)
    ensures Total(Drained(v, s).buffers) <= Total(v.buffers)
  {
    var before, after := Lengths(v.buffers), Lengths(Drained(v, s).buffers);
    assert after == before - {s};
    if s in v.buffers {
      SumSplit(Count, before, s);
    } else {
      assert before - {s} == before;
    }
  }

  /** Leaving the queues alone, or clearing the queue of the one shard that may get another home. */
  lemma FittingAfter<M>(v: View<M>, w: View<M>, s: ShardId)
    requires Fitting(v) && w.self == v.self && w.capacity == v.capacity
    requires w.homes == v.homes || w.homes == v.homes - {s} || (s in w.homes && w.homes == v.homes[s := w.homes[s]])
    requires
      || w.buffers == v.buffers - {s}
      || (w.buffers == v.buffers && (s in w.homes ==> w.homes == v.homes || w.homes[s] == v.self))
    ensures Fitting(w)
  {
    hide Total;
    TotalDrained(v, s);
  }

  lemma RouteSound<M>(v: View<M>, s: ShardId, m: M)
    requires Sound(v)
    ensures Sound(Routed(v, s, m).0)
  {
    hide Total;
    TotalQueued(v, s, m);
  }

  lemma HostSound<M>(v: View<M>, s: ShardId)
    requires Sound(v)
    ensures Sound(Hosted(v, s).0)
  {
    hide Fitting, Queue;
    FittingAfter(v, Hosted(v, s).0, s);
  }

  lemma RecordSound<M>(v: View<M>, s: ShardId, r: RegionId)
    requires Sound(v)
    ensures Sound(HomeRecorded(v, s, r).0)
  {
    hide Fitting, Queue;
    FittingAfter(v, HomeRecorded(v, s, r).0, s);
  }

  lemma HandoffSound<M>(v: View<M>, s: ShardId)
    requires Sound(v)
    ensures Sound(HandoffBegun(v, s).0) && Sound(HandedOff(v, s).0)
  {
    hide Fitting, Queue;
    FittingAfter(v, HandoffBegun(v, s).0, s);
    FittingAfter(v, HandedOff(v, s).0, s);
  }

  lemma LifecycleSound<M>(v: View<M>, s: ShardId)
    requires Sound(v)
    ensures Sound(ShardStarted(v, s).0) && Sound(ShardStopped(v, s))
  {
    hide Fitting, Queue;
    FittingAfter(v, ShardStarted(v, s).0, s);
    FittingAfter(v, ShardStopped(v, s), s);
  }

  lemma AppliedSound<M>(v: View<M>, op: Op<M>)
    requires Sound(v)
    ensures Sound(Applied(v, op).0)
  {
    hide Total, Routed, Hosted, HomeRecorded, HandoffBegun, HandedOff, ShardStarted, ShardStopped;
    match op {
      case Route(s, m) => RouteSound(v, s, m);
      case Host(s) => HostSound(v, s);
      case RecordHome(s, r) => RecordSound(v, s, r);
      case BeginHandoff(s) => HandoffSound(v, s);
      case Handoff(s) => HandoffSound(v, s);
      case MarkStarted(s) => LifecycleSound(v, s);
      case MarkStopped(s) => LifecycleSound(v, s);
      case MarkRegionStopped(_) =>
      case SetFlags(_, _) =>
    }
  }

  // ----- Order is kept -----

  lemma {:induction false} FatesAppend<M>(fates: seq<Fate<M>>, more: seq<Fate<M>>, s: ShardId)
    ensures AcceptedFor(fates + more, s) == AcceptedFor(fates, s) + AcceptedFor(more, s)
    ensures SettledFor(fates + more, s) == SettledFor(fates, s) + SettledFor(more, s)
  {
    if more == [] {
      assert fates + more == fates;
    } else {
      FatesAppend(fates, more[..|more| - 1], s);
      assert (fates + more)[..|fates + more| - 1] == fates + more[..|more| - 1];
    }
  }

  lemma OneFate<M>(f: Fate<M>, s: ShardId)
    ensures AcceptedFor([f], s) == if f.Accepted? && f.shard == s then [f.message] else []
    ensures SettledFor([f], s) == if !f.Accepted? && f.shard == s then f.messages else []
  {
    assert [f][..0] == [];
  }

  lemma TwoFates<M>(f: Fate<M>, g: Fate<M>, s: ShardId)
    ensures AcceptedFor([f, g], s) == AcceptedFor([f], s) + AcceptedFor([g], s)
    ensures SettledFor([f, g], s) == SettledFor([f], s) + SettledFor([g], s)
  {
    assert [f, g] == [f] + [g];
    FatesAppend([f], [g], s);
  }

  /** One operation keeps every shard's messages in line: what waited before, then what came in,
      is what left, then what waits now. */
  ghost predicate InLine<M>(v: View<M>, w: View<M>, fates: seq<Fate<M>>, s: ShardId) {
    Queue(v, s) + AcceptedFor(fates, s) == SettledFor(fates, s) + Queue(w, s)
  }

  lemma LineKept<M>(v: View<M>, w: View<M>, s: ShardId)
    requires w.buffers == v.buffers
    ensures InLine(v, w, [], s)
  {
  }

  lemma LineCleared<M>(v: View<M>, w: View<M>, f: Fate<M>, s: ShardId)
    requires !f.Accepted? && f.messages == Queue(v, f.shard) && w.buffers == v.buffers - {f.shard}
    ensures InLine(v, w, [f], s)
  {
    hide AcceptedFor, SettledFor;
    OneFate(f, s);
  }

  lemma LineJoined<M>(v: View<M>, m: M, q: ShardId, s: ShardId)
    ensures InLine(v, Queued(v, q, m), [Accepted(q, m)], s)
  {
    hide AcceptedFor, SettledFor;
    OneFate(Accepted(q, m), s);
  }

  lemma LinePassed<M>(v: View<M>, m: M, f: Fate<M>, s: ShardId)
    requires !f.Accepted? && f.messages == [m] && f.shard !in v.buffers
    ensures InLine(v, v, [Accepted(f.shard, m), f], s)
  {
    hide AcceptedFor, SettledFor;
    OneFate(Accepted(f.shard, m), s);
    OneFate(f, s);
    TwoFates(Accepted(f.shard, m), f, s);
  }

  lemma RouteInLine<M>(v: View<M>, q: ShardId, m: M, s: ShardId)
    requires Sound(v)
    ensures InLine(v, Routed(v, q, m).0, RouteFates(Routed(v, q, m).1, m), s)
  {
    hide Total, InLine, Queued;
    match Routed(v, q, m).1 {
      case DeliverLocal(_, _) => LinePassed(v, m, Delivered(q, [m]), s);
      case Forward(_, r, _) => LinePassed(v, m, Forwarded(q, r, [m]), s);
      case Buffered(_, _) => LineJoined(v, m, q, s);
      case Dropped(_, _, _) => LineKept(v, v, s);
    }
  }

  lemma NoFates<M>(s: ShardId)
    ensures AcceptedFor<M>([], s) == [] && SettledFor<M>([], s) == []
  {
  }

  lemma AppliedInLine<M>(v: View<M>, op: Op<M>, s: ShardId)
    requires Sound(v)
    ensures InLine(v, Applied(v, op).0, Applied(v, op).1, s)
  {
    hide Total, Routed, InLine, RouteFates;
    var (w, fates) := Applied(v, op);
    if op.Route? {
      RouteInLine(v, op.shard, op.message, s);
    } else if fates == [] {
      LineKept(v, w, s);
    } else {
      LineCleared(v, w, fates[0], s);
      assert fates == [fates[0]];
    }
  }

  /** Over every run the messages accepted for a shard are, in arrival order, those that left the
      region followed by those still queued; the queues fit the capacity and none belongs to a shard
      homed elsewhere. */
  lemma {:induction false} RegionKeepsOrder<M>(self: RegionId, capacity: nat, ops: seq<Op<M>>, s: ShardId)
    ensures var (v, fates) := Run(Empty(self, capacity), ops);
      && AcceptedFor(fates, s) == SettledFor(fates, s) + Queue(v, s)
      && Sound(v)
  {
    hide Total, AcceptedFor, SettledFor, Applied;
    if ops == [] {
      NoFates<M>(s);
      TotalEmpty<M>();
    } else {
      var init, op := ops[..|ops| - 1], ops[|ops| - 1];
      RegionKeepsOrder(self, capacity, init, s);
      var (v, fates) := Run(Empty(self, capacity), init);
      var (w, more) := Applied(v, op);
      AppliedSound(v, op);
      AppliedInLine(v, op, s);
      FatesAppend(fates, more, s);
      Chain(AcceptedFor(fates, s), SettledFor(fates, s), Queue(v, s), AcceptedFor(more, s), SettledFor(more, s), Queue(w, s));
    }
  }

  lemma Chain<M>(a: seq<M>, b: seq<M>, q: seq<M>, c: seq<M>, d: seq<M>, p: seq<M>)
    requires a == b + q && q + c == d + p
    ensures a + c == b + d + p
  {
    assert a + c == b + (q + c) == b + (d + p) == b + d + p;
  }

  lemma TotalEmpty<M>()
    ensures Total<M>(map[]) == 0
  {
    assert Lengths<M>(map[]) == map[];
  }

  /** A shard's home is requested exactly when its first message is queued while the home is unknown. */
  lemma HomeRequestedOnce<M>(v: View<M>, s: ShardId, m: M)
    requires Sound(v)
    ensures Routed(v, s, m).1 == Buffered(s, true) <==>
      s.name != "" && s !in v.homes && Queue(v, s) == [] && Total(v.buffers) < v.capacity
  {
  }

  /** A shard this region owns never gets another home directly: it is given up first. And while a
      shard is handed off no home reply is taken. */
  lemma OwnershipGivenUpFirst<M>(v: View<M>, op: Op<M>, s: ShardId)
    requires s in v.homes && v.homes[s] == v.self
    ensures var w := Applied(v, op).0;
      && (s in w.homes ==> w.homes[s] == v.self)
      && (s !in w.homes ==>
            op == BeginHandoff(s) || op == Handoff(s) || op == MarkStopped(s) || op == MarkRegionStopped(v.self))
      && (op.RecordHome? && op.shard in v.handingOff ==> w == v && Applied(v, op).1 == [])
  {
    hide Routed, HomeRecorded;
    match op {
      case Route(q, m) => RouteKeepsHomes(v, q, m);
      case RecordHome(q, r) => ReplyKeepsOwned(v, q, r, s);
      case _ =>
    }
  }

  lemma RouteKeepsHomes<M>(v: View<M>, q: ShardId, m: M)
    ensures Routed(v, q, m).0.homes == v.homes
  {
    hide Total;
  }

  lemma ReplyKeepsOwned<M>(v: View<M>, q: ShardId, r: RegionId, s: ShardId)
    requires s in v.homes && v.homes[s] == v.self
    ensures var (w, plan) := HomeRecorded(v, q, r);
      s in w.homes && w.homes[s] == v.self && (q in v.handingOff ==> w == v && plan.Err?)
  {
  }

  /** Where a message goes: to the local shard exactly when this region owns it, it has started and nothing is
      queued for it; to another region exactly when that is the cached home; otherwise it is queued, or dropped
      exactly when the queues are full. Nothing but the queue it joins changes. */
  lemma RouteMeaning<M>(v: View<M>, s: ShardId, m: M)
    requires s.name != ""
    ensures var (w, plan) := Routed(v, s, m);
      var owned := s in v.homes && v.homes[s] == v.self;
      var passes := (s in v.homes && !owned) || (owned && s in v.local && s !in v.buffers);
      && (plan == DeliverLocal(s, m) <==> owned && s in v.local && s !in v.buffers)
      && (forall r :: plan == Forward(s, r, m) <==> s in v.homes && v.homes[s] == r && r != v.self)
      && (plan == Dropped(Some(s), BufferFull, m) <==> !passes && Total(v.buffers) >= v.capacity)
      && (plan.Buffered? <==> !passes && Total(v.buffers) < v.capacity)
      && (if plan.Buffered? then w == v.(buffers := v.buffers[s := Queue(v, s) + [m]]) else w == v)
  {
    hide Total;
  }

  lemma EmptyShardRefused<M>(v: View<M>, s: ShardId, m: M)
    ensures Routed(v, s, m) == (v, Dropped(None, EmptyShardId, m)) <==> s.name == ""
  {
    hide Total;
  }

  // ----- One shard at a time -----

  /** What a region knows about one shard. */
  datatype Status<M> = Status(home: Option<RegionId>, queue: seq<M>, local: bool, starting: bool, handingOff: bool)

  function StatusOf<M>(v: View<M>, s: ShardId): Status<M> {
    Status(if s in v.homes then Some(v.homes[s]) else None, Queue(v, s), s in v.local, s in v.starting, s in v.handingOff)
  }

  ghost predicate Untouched<M>(v: View<M>, w: View<M>, s: ShardId) {
    && StatusOf(w, s) == StatusOf(v, s) && w.self == v.self && w.capacity == v.capacity
    && w.draining == v.draining && w.preparing == v.preparing
  }

  lemma RouteUntouched<M>(v: View<M>, q: ShardId, m: M, s: ShardId)
    requires q != s
    ensures Untouched(v, Routed(v, q, m).0, s)
  {
    hide Total;
  }

  lemma HostUntouched<M>(v: View<M>, q: ShardId, s: ShardId)
    requires q != s
    ensures Untouched(v, Hosted(v, q).0, s)
  {
  }

  lemma ReplyUntouched<M>(v: View<M>, q: ShardId, r: RegionId, s: ShardId)
    requires q != s
    ensures Untouched(v, HomeRecorded(v, q, r).0, s)
  {
  }

  lemma StartUntouched<M>(v: View<M>, q: ShardId, s: ShardId)
    requires q != s
    ensures Untouched(v, ShardStarted(v, q).0, s)
  {
  }

  lemma StopUntouched<M>(v: View<M>, q: ShardId, s: ShardId)
    requires q != s
    ensures Untouched(v, ShardStopped(v, q), s)
  {
  }

  lemma BeginUntouched<M>(v: View<M>, q: ShardId, s: ShardId)
    requires q != s
    ensures Untouched(v, HandoffBegun(v, q).0, s)
  {
  }

  lemma HandoffUntouched<M>(v: View<M>, q: ShardId, s: ShardId)
    requires q != s
    ensures Untouched(v, HandedOff(v, q).0, s)
  {
  }

  /** An operation on one shard leaves every other shard and every flag alone. */
  lemma OtherShardsUntouched<M>(v: View<M>, op: Op<M>, s: ShardId)
    requires !op.MarkRegionStopped? && !op.SetFlags? && op.shard != s
    ensures Untouched(v, Applied(v, op).0, s)
  {
    hide Untouched, Routed, Hosted, HomeRecorded, ShardStarted, ShardStopped, HandoffBegun, HandedOff;
    match op {
      case Route(q, m) => RouteUntouched(v, q, m, s);
      case Host(q) => HostUntouched(v, q, s);
      case RecordHome(q, r) => ReplyUntouched(v, q, r, s);
      case MarkStarted(q) => StartUntouched(v, q, s);
      case BeginHandoff(q) => BeginUntouched(v, q, s);
      case Handoff(q) => HandoffUntouched(v, q, s);
      case MarkStopped(q) => StopUntouched(v, q, s);
    }
  }

  /** A host command makes the region the owner unless it shuts down: a started shard has its whole queue
      delivered, any other is starting. */
  lemma HostMeaning<M>(v: View<M>, s: ShardId)
    ensures var (w, plan) := Hosted(v, s);
      var was, now := StatusOf(v, s), StatusOf(w, s);
      && (plan == IgnoredGracefulShutdown(s) <==> v.draining) && (v.draining ==> w == v)
      && (!v.draining ==> now == was.(home := Some(v.self), queue := now.queue, starting := now.starting))
      && (plan == AlreadyStarted(s, was.queue) <==> !v.draining && was.local)
      && (plan.AlreadyStarted? ==> now.queue == [] && now.starting == was.starting)
      && (plan == StartLocalShard(s) <==> !v.draining && !was.local)
      && (plan.StartLocalShard? ==> now.queue == was.queue && now.starting)
  {
  }

  /** A home reply is refused exactly during a handoff or when it would move an owned shard away. Otherwise it is
      recorded: a remote home gets the whole queue, a started local shard has it delivered, any other is starting. */
  lemma HomeReplyMeaning<M>(v: View<M>, s: ShardId, r: RegionId)
    ensures var (w, plan) := HomeRecorded(v, s, r);
      var was, now := StatusOf(v, s), StatusOf(w, s);
      var moves := was.home == Some(v.self) && r != v.self;
      && (plan == Err(HomeDuringHandOff(s, r)) <==> was.handingOff)
      && (plan == Err(InconsistentHome(s, v.self, r)) <==> !was.handingOff && moves)
      && (plan.Err? ==> w == v)
      && (plan.Ok? ==> now == was.(home := Some(r), queue := now.queue, starting := now.starting))
      && (plan == Ok(ForwardAll(s, r, was.queue)) <==> !was.handingOff && !moves && r != v.self)
      && (plan == Ok(ReplayLocal(s, was.queue)) <==> !was.handingOff && r == v.self && was.local)
      && (plan == Ok(StartHere(s)) <==> !was.handingOff && r == v.self && !was.local)
      && (plan.Ok? && plan.value.StartHere? ==> now.queue == was.queue && now.starting)
      && (plan.Ok? && !plan.value.StartHere? ==> now.queue == [] && now.starting == was.starting)
  {
  }

  /** A started shard is owned and local and has its whole queue delivered. A handed-off shard has no home and no
      queue, and exactly a local one is still to be stopped. A stopped shard is forgotten but for its queue. */
  lemma LifecycleMeaning<M>(v: View<M>, s: ShardId)
    ensures var was := StatusOf(v, s);
      && (var (w, buffered) := ShardStarted(v, s);
          buffered == was.queue && StatusOf(w, s) == Status(Some(v.self), [], true, false, was.handingOff))
      && (var (w, plan) := HandedOff(v, s);
          && StatusOf(w, s) == Status(None, [], was.local, was.starting, was.handingOff || was.local)
          && (plan == ForwardToLocalShard(s, |was.queue|) <==> was.local)
          && (plan == ReplyShardStopped(s, |was.queue|) <==> !was.local))
      && StatusOf(ShardStopped(v, s), s) == Status(None, was.queue, false, false, false)
  {
  }

  /** When another region stops, exactly the homes cached for it are forgotten, and they are listed in order. */
  lemma RegionStoppedMeaning<M>(v: View<M>, r: RegionId, s: ShardId)
    ensures var (w, shards) := RegionStopped(v, r);
      var was := StatusOf(v, s);
      && StatusOf(w, s) == (if was.home == Some(r) then was.(home := None) else was)
      && (s in shards <==> was.home == Some(r)) && Increasing(shards)
  {
  }

  // ----- Between the two phases of a handoff -----

  /** The first phase is acknowledged exactly outside shutdown preparation; then the shard has no cached home any
      more and nothing else about it or any other shard has changed. */
  lemma BeginHandoffMeaning<M>(v: View<M>, s: ShardId)
    ensures var (w, plan) := HandoffBegun(v, s);
      && (plan == Ack(s) <==> !v.preparing) && (plan == IgnoredPreparing(s) <==> v.preparing)
      && (v.preparing ==> w == v)
      && (!v.preparing ==> w == v.(homes := w.homes) && StatusOf(w, s) == StatusOf(v, s).(home := None))
      && (forall t :: t != s ==> StatusOf(w, t) == StatusOf(v, t))
  {
  }

  /** The operations that let messages of a shard through again. */
  predicate Resumes<M>(op: Op<M>, s: ShardId) {
    (op.Host? || op.RecordHome? || op.MarkStarted?) && op.shard == s
  }

  ghost predicate HeldBack<M>(fates: seq<Fate<M>>, from: nat, s: ShardId) {
    forall n :: from <= n < |fates| && (fates[n].Delivered? || fates[n].Forwarded?) ==> fates[n].shard != s
  }

  lemma HomelessRoute<M>(v: View<M>, q: ShardId, m: M, s: ShardId)
    requires s !in v.homes
    ensures s !in Routed(v, q, m).0.homes && HeldBack(RouteFates(Routed(v, q, m).1, m), 0, s)
  {
    hide Total;
  }

  lemma HomelessOther<M>(v: View<M>, op: Op<M>, s: ShardId)
    requires s !in v.homes && !op.MarkRegionStopped? && !op.SetFlags? && !op.Route? && op.shard != s
    ensures s !in Applied(v, op).0.homes
  {
    hide Applied;
    OtherShardsUntouched(v, op, s);
  }

  lemma HomelessFates<M>(v: View<M>, op: Op<M>, s: ShardId)
    requires !op.Route? && !Resumes(op, s)
    ensures HeldBack(Applied(v, op).1, 0, s)
  {
    hide Routed;
  }

  lemma HomelessStep<M>(v: View<M>, op: Op<M>, s: ShardId)
    requires s !in v.homes && !Resumes(op, s)
    ensures s !in Applied(v, op).0.homes && HeldBack(Applied(v, op).1, 0, s)
  {
    hide HeldBack, Routed, Hosted, HomeRecorded, ShardStarted;
    if op.Route? {
      HomelessRoute(v, op.shard, op.message, s);
    } else {
      HomelessFates(v, op, s);
      if op.Host? || op.RecordHome? || op.MarkStarted? {
        HomelessOther(v, op, s);
      }
    }
  }

  lemma RunAppends<M>(v: View<M>, ops: seq<Op<M>>, op: Op<M>)
    ensures var (mid, fates) := Run(v, ops);
      Run(v, ops + [op]) == (Applied(mid, op).0, fates + Applied(mid, op).1)
  {
    assert (ops + [op])[..|ops + [op]| - 1] == ops;
  }

  /** Over every run, after an acknowledged first phase no message of the shard is delivered or forwarded until a
      host command, a home reply or a start for that shard: whatever arrives waits or is dropped. */
  lemma {:induction false} AcknowledgedHoldsMessages<M>(
      self: RegionId, capacity: nat, before: seq<Op<M>>, s: ShardId, later: seq<Op<M>>)
    requires HandoffBegun(Run(Empty(self, capacity), before).0, s).1.Ack?
    requires forall i :: 0 <= i < |later| ==> !Resumes(later[i], s)
    ensures var start := before + [BeginHandoff(s)];
      var sofar := Run(Empty(self, capacity), start).1;
      var (v, fates) := Run(Empty(self, capacity), start + later);
      && s !in v.homes && |sofar| <= |fates| && fates[..|sofar|] == sofar && HeldBack(fates, |sofar|, s)
    decreases |later|
  {
    hide Run, Applied;
    var start := before + [BeginHandoff(s)];
    var sofar := Run(Empty(self, capacity), start).1;
    if later == [] {
      assert start + later == start;
      RunAppends(Empty(self, capacity), before, BeginHandoff(s));
      BegunHomeless(Run(Empty(self, capacity), before).0, s);
    } else {
      var init, op := later[..|later| - 1], later[|later| - 1];
      AcknowledgedHoldsMessages(self, capacity, before, s, init);
      assert start + later == start + init + [op];
      RunAppends(Empty(self, capacity), start + init, op);
      var (v, fates) := Run(Empty(self, capacity), start + init);
      HomelessStep(v, op, s);
      var more := Applied(v, op).1;
      assert (fates + more)[..|sofar|] == fates[..|sofar|];
    }
  }

  lemma BegunHomeless<M>(v: View<M>, s: ShardId)
    requires HandoffBegun(v, s).1.Ack?
    ensures s !in Applied(v, BeginHandoff(s)).0.homes
  {
  }
}
