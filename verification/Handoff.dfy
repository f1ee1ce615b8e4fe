/** The two-phase handoff of one shard: every participant first drops its cached
    home, then the old owner is told to stop the shard. */
module Handoff {
  import opened Ids
  import opened CoordinatorDecisions

  datatype Phase = Idle | AwaitingBeginAcks | AwaitingShardStopped | Done

  datatype BeginReply = Ack(shard: ShardId, ackShard: ShardId) | IgnoredPreparing(shard: ShardId)

  datatype OwnerReply =
    | ForwardedToLocalShard(shard: ShardId)
    | MissingLocalShard(shard: ShardId)
    | ReplyShardStopped(shard: ShardId)

  datatype ShardReply =
    | StartEntityStopper(shard: ShardId)
    | StopImmediately(shard: ShardId)
    | ShardStopped(shard: ShardId)
    | HandoffInProgress(shard: ShardId)

  datatype CompletionReply = Completed(shard: ShardId, stopped: ShardId) | Failed(shard: ShardId)

  datatype Msg =
    | Start
    | BeginAck(region: RegionId, begin: BeginReply)
    | LocalForwarded(owner: OwnerReply)
    | ShardObserved(reply: ShardReply)
    | LocalCompleted(completion: CompletionReply)
    | RemoteStopped(region: RegionId, shard: ShardId)
    | RegionTerminated(region: RegionId)
    | Timeout
    | GetState

  /** Which sends the transport accepts while one message is processed. */
  datatype Links = Links(begin: set<RegionId>, handoff: bool, complete: bool)

  datatype Effect =
    | InvalidateHome(region: RegionId, accepted: bool)
    | CommandStop(accepted: bool)
    | AskCompletion(accepted: bool)
    | Report(ok: bool)

  datatype Worker = Worker(
    plan: HandoffPlan,
    phase: Phase,
    remaining: set<RegionId>,
    stopUnsent: bool,
    replyDue: bool)

  function Fresh(plan: HandoffPlan): Worker {
    Worker(plan, Idle, {}, true, false)
  }

  /** A participant no longer routes to the shard: it said so, or it terminated. */
  predicate IsRelease(plan: HandoffPlan, p: RegionId, m: Msg) {
    m == BeginAck(p, Ack(plan.shard, plan.shard)) || m == RegionTerminated(p)
  }

  /** The old owner no longer runs the shard: someone with the right to say so said so, or it terminated. */
  predicate IsEvidence(plan: HandoffPlan, m: Msg) {
    || m == LocalForwarded(ReplyShardStopped(plan.shard))
    || m == ShardObserved(ShardStopped(plan.shard))
    || m == ShardObserved(StopImmediately(plan.shard))
    || m == LocalCompleted(Completed(plan.shard, plan.shard))
    || m == RemoteStopped(plan.from, plan.shard)
    || m == RegionTerminated(plan.from)
  }

  // ----- What each message does -----

  function Finished(w: Worker, ok: bool): (Worker, seq<Effect>) {
    if w.phase.Done? then (w, [])
    else (w.(phase := Done, remaining := {}, replyDue := false), if w.replyDue then [Report(ok)] else [])
  }

  function StopCommanded(w: Worker, links: Links): (Worker, seq<Effect>) {
    if !w.stopUnsent then (w, [])
    else
      var v := w.(phase := AwaitingShardStopped, stopUnsent := false);
      if links.handoff then (v, [CommandStop(true)])
      else
        var (done, effects) := Finished(v, false);
        (done, [CommandStop(false)] + effects)
  }

  /** One participant fewer to wait for; the last one releases the stop command. */
  function Released(w: Worker, p: RegionId, links: Links): (Worker, seq<Effect>) {
    var v := w.(remaining := w.remaining - {p});
    if v.remaining == {} then StopCommanded(v, links) else (v, [])
  }

  /** Invalidations sent in order up to and including the first one that is not accepted. */
  function Invalidations(order: seq<RegionId>, reachable: set<RegionId>): seq<Effect> {
    if order == [] then []
    else if order[0] in reachable then [InvalidateHome(order[0], true)] + Invalidations(order[1..], reachable)
    else [InvalidateHome(order[0], false)]
  }

  function Begun(w: Worker, links: Links): (Worker, seq<Effect>) {
    var v := w.(phase := AwaitingBeginAcks, remaining := w.plan.participants, replyDue := true);
    if v.remaining == {} then StopCommanded(v, links)
    else
      var sends := Invalidations(Sorted(w.plan.participants), links.begin);
      if w.plan.participants <= links.begin then (v, sends)
      else
        var (done, effects) := Finished(v, false);
        (done, sends + effects)
  }

  /** The worker after one message, and what it sent meanwhile. */
  function Received(w: Worker, m: Msg, links: Links): (Worker, seq<Effect>) {
    match w.phase
    case Idle =>
      if m.Start? then Begun(w, links)
      else if m.Timeout? then Finished(w, false)
      else (w, [])
    case AwaitingBeginAcks =>
      if m.Timeout? || (m.BeginAck? && m.begin != Ack(w.plan.shard, w.plan.shard)) then Finished(w, false)
      else if m.BeginAck? || m.RegionTerminated? then Released(w, m.region, links)
      else (w, [])
    case AwaitingShardStopped =>
      if IsEvidence(w.plan, m) then Finished(w, true)
      else if m == ShardObserved(StartEntityStopper(w.plan.shard)) then
        if links.complete then (w, [AskCompletion(true)])
        else
          var (done, effects) := Finished(w, false);
          (done, [AskCompletion(false)] + effects)
      else if m.Start? || m.BeginAck? || m.GetState? || m.RegionTerminated?
              || m == LocalForwarded(ForwardedToLocalShard(w.plan.shard)) then (w, [])
      else Finished(w, false)
    case Done => (w, [])
  }

  // ----- The mutable worker -----

  class HandoffWorker {
    const plan: HandoffPlan
    var phase: Phase
    var remaining: set<RegionId>
    var stopMessage: bool
    var replyTo: bool
    var sent: seq<Effect>

    function View(): Worker
      reads this
    {
      Worker(plan, phase, remaining, stopMessage, replyTo)
    }

    constructor (plan: HandoffPlan)
      ensures View() == Fresh(plan) && sent == []
    {
      this.plan := plan;
      phase, remaining, stopMessage, replyTo, sent := Idle, {}, true, false, [];
    }

    method Receive(m: Msg, links: Links)
      modifies this
      ensures View() == Received(old(View()), m, links).0
      ensures sent == old(sent) + Received(old(View()), m, links).1
    {
      match m {
        case Start => Begin(links);
        case BeginAck(region, begin) => ApplyBeginAck(region, begin, links);
        case LocalForwarded(owner) => ApplyLocalHandoff(owner);
        case ShardObserved(reply) => ApplyShardHandoffObserved(reply, links);
        case LocalCompleted(completion) => ApplyLocalHandoffCompletion(completion);
        case RemoteStopped(region, shard) => ApplyRemoteShardStopped(region, shard);
        case RegionTerminated(region) => ApplyRegionTerminated(region, links);
        case Timeout => Finish(false);
        case GetState =>
      }
    }

    method Begin(links: Links)
      modifies this
      ensures View() == if old(phase) == Idle then Begun(old(View()), links).0 else old(View())
      ensures sent == if old(phase) == Idle then old(sent) + Begun(old(View()), links).1 else old(sent)
    {
      hide Invalidations, StopCommanded, Finished, Sorted;
      if phase != Idle {
        return;
      }
      replyTo := true;
      phase := AwaitingBeginAcks;
      remaining := plan.participants;
      if remaining == {} {
        SendLocalHandoff(links);
        return;
      }
      var accepted := SendInvalidations(links);
      if !accepted {
        Finish(false);
      }
    }

    method SendInvalidations(links: Links) returns (accepted: bool)
      modifies this`sent
      ensures accepted <==> plan.participants <= links.begin
      ensures sent == old(sent) + Invalidations(Sorted(plan.participants), links.begin)
    {
      hide Invalidations;
      var order := Sorted(plan.participants);
      InvalidationsAccepted(order, plan.participants, links.begin);
      assert order[0..] == order;
      for i := 0 to |order|
        invariant sent + Invalidations(order[i..], links.begin) == old(sent) + Invalidations(order, links.begin)
        invariant forall j :: 0 <= j < i ==> order[j] in links.begin
      {
        NextInvalidation(sent, order, i, links.begin);
        sent := sent + [InvalidateHome(order[i], order[i] in links.begin)];
        if order[i] !in links.begin {
          return false;
        }
      }
      NoInvalidations(sent, order, links.begin);
      return true;
    }

    method ApplyBeginAck(region: RegionId, begin: BeginReply, links: Links)
      modifies this
      ensures View() == Received(old(View()), BeginAck(region, begin), links).0
      ensures sent == old(sent) + Received(old(View()), BeginAck(region, begin), links).1
    {
      if phase != AwaitingBeginAcks {
        return;
      }
      if !begin.Ack? || begin.shard != plan.shard || begin.ackShard != plan.shard {
        Finish(false);
        return;
      }
      remaining := remaining - {region};
      if remaining == {} {
        SendLocalHandoff(links);
      }
    }

    method SendLocalHandoff(links: Links)
      modifies this
      ensures View() == StopCommanded(old(View()), links).0
      ensures sent == old(sent) + StopCommanded(old(View()), links).1
    {
      if !stopMessage {
        return;
      }
      stopMessage := false;
      phase := AwaitingShardStopped;
      sent := sent + [CommandStop(links.handoff)];
      if !links.handoff {
        Finish(false);
      }
    }

    method ApplyLocalHandoff(owner: OwnerReply)
      modifies this
      ensures forall links :: View() == Received(old(View()), LocalForwarded(owner), links).0
      ensures forall links :: sent == old(sent) + Received(old(View()), LocalForwarded(owner), links).1
    {
      if phase != AwaitingShardStopped {
        return;
      }
      match owner {
        case ForwardedToLocalShard(shard) =>
          if shard != plan.shard {
            Finish(false);
          }
        case ReplyShardStopped(shard) => Finish(shard == plan.shard);
        case MissingLocalShard(_) => Finish(false);
      }
    }

    method ApplyShardHandoffObserved(reply: ShardReply, links: Links)
      modifies this
      ensures View() == Received(old(View()), ShardObserved(reply), links).0
      ensures sent == old(sent) + Received(old(View()), ShardObserved(reply), links).1
    {
      if phase != AwaitingShardStopped {
        return;
      }
      if (reply.ShardStopped? || reply.StopImmediately?) && reply.shard == plan.shard {
        Finish(true);
      } else if reply.StartEntityStopper? && reply.shard == plan.shard {
        sent := sent + [AskCompletion(links.complete)];
        if !links.complete {
          Finish(false);
        }
      } else {
        Finish(false);
      }
    }

    method ApplyLocalHandoffCompletion(completion: CompletionReply)
      modifies this
      ensures forall links :: View() == Received(old(View()), LocalCompleted(completion), links).0
      ensures forall links :: sent == old(sent) + Received(old(View()), LocalCompleted(completion), links).1
    {
      if phase != AwaitingShardStopped {
        return;
      }
      Finish(completion.Completed? && completion.shard == plan.shard && completion.stopped == plan.shard);
    }

    method ApplyRemoteShardStopped(region: RegionId, shard: ShardId)
      modifies this
      ensures forall links :: View() == Received(old(View()), RemoteStopped(region, shard), links).0
      ensures forall links :: sent == old(sent) + Received(old(View()), RemoteStopped(region, shard), links).1
    {
      if phase != AwaitingShardStopped {
        return;
      }
      Finish(region == plan.from && shard == plan.shard);
    }

    method ApplyRegionTerminated(region: RegionId, links: Links)
      modifies this
      ensures View() == Received(old(View()), RegionTerminated(region), links).0
      ensures sent == old(sent) + Received(old(View()), RegionTerminated(region), links).1
    {
      match phase {
        case AwaitingBeginAcks =>
          remaining := remaining - {region};
          if remaining == {} {
            SendLocalHandoff(links);
          }
        case AwaitingShardStopped =>
          if region == plan.from {
            Finish(true);
          }
        case _ =>
      }
    }

    method Finish(ok: bool)
      modifies this
      ensures View() == Finished(old(View()), ok).0
      ensures sent == old(sent) + Finished(old(View()), ok).1
    {
      if phase == Done {
        return;
      }
      phase := Done;
      remaining := {};
      if replyTo {
        replyTo := false;
        sent := sent + [Report(ok)];
      }
    }
  }

  lemma NextInvalidation(sent: seq<Effect>, order: seq<RegionId>, i: nat, reachable: set<RegionId>)
    requires i < |order|
    ensures sent + Invalidations(order[i..], reachable) ==
      sent + [InvalidateHome(order[i], order[i] in reachable)] +
        if order[i] in reachable then Invalidations(order[i + 1..], reachable) else []
  {
    assert order[i..][1..] == order[i + 1..];
  }

  lemma NoInvalidations(sent: seq<Effect>, order: seq<RegionId>, reachable: set<RegionId>)
    ensures sent + Invalidations(order[|order|..], reachable) == sent
  {
  }

  lemma InvalidationsAccepted(order: seq<RegionId>, participants: set<RegionId>, reachable: set<RegionId>)
    requires Lists(order, participants)
    ensures participants <= reachable <==> forall j :: 0 <= j < |order| ==> order[j] in reachable
  {
    if forall j :: 0 <= j < |order| ==> order[j] in reachable {
      forall p | p in participants ensures p in reachable {
        assert p in order;
      }
    }
  }
}
