/** Whole runs of one handoff worker, for every sequence of messages and every
    pattern of transport failures. */
module HandoffRuns {
  import opened Ids
  import opened CoordinatorDecisions
  import opened Handoff

  datatype Input = Input(msg: Msg, links: Links)

  /** The worker after all inputs, and everything it sent. */
  function Run(w: Worker, inputs: seq<Input>): (Worker, seq<Effect>) {
    if inputs == [] then (w, [])
    else
      var (mid, sent) := Run(w, inputs[..|inputs| - 1]);
      var last := inputs[|inputs| - 1];
      var (end, more) := Received(mid, last.msg, last.links);
      (end, sent + more)
  }

  function Rank(p: Phase): nat {
    match p
    case Idle => 0
    case AwaitingBeginAcks => 1
    case AwaitingShardStopped => 2
    case Done => 3
  }

  function Stops(sent: seq<Effect>): nat {
    if sent == [] then 0 else Stops(sent[..|sent| - 1]) + if sent[|sent| - 1].CommandStop? then 1 else 0
  }

  function Reports(sent: seq<Effect>): nat {
    if sent == [] then 0 else Reports(sent[..|sent| - 1]) + if sent[|sent| - 1].Report? then 1 else 0
  }

  /** The worker was started, and not given up before that. */
  ghost predicate Started(inputs: seq<Input>) {
    exists k :: 0 <= k < |inputs| && inputs[k].msg.Start? && forall i :: 0 <= i < k ==> !inputs[i].msg.Timeout?
  }

  ghost predicate ReleasedWithin(plan: HandoffPlan, inputs: seq<Input>, k: nat, n: nat, p: RegionId) {
    exists i :: k < i < n <= |inputs| && IsRelease(plan, p, inputs[i].msg)
  }

  /** After the start at `k` and before position `n` every participant let go of the shard. */
  ghost predicate AllReleased(plan: HandoffPlan, inputs: seq<Input>, k: nat, n: nat) {
    && k < n <= |inputs| && inputs[k].msg.Start?
    && forall p :: p in plan.participants ==> ReleasedWithin(plan, inputs, k, n, p)
  }

  /** A start, then the release of every participant, then evidence that the owner stopped the shard. */
  ghost predicate Justified(plan: HandoffPlan, inputs: seq<Input>) {
    exists k: nat, j: nat :: AllReleased(plan, inputs, k, j) && j < |inputs| && IsEvidence(plan, inputs[j].msg)
  }

  ghost predicate Released(plan: HandoffPlan, inputs: seq<Input>) {
    exists k: nat :: AllReleased(plan, inputs, k, |inputs|)
  }

  lemma {:induction false} CountsAdd(x: seq<Effect>, y: seq<Effect>)
    ensures Stops(x + y) == Stops(x) + Stops(y)
    ensures Reports(x + y) == Reports(x) + Reports(y)
  {
    if y == [] {
      assert x + y == x;
    } else {
      CountsAdd(x, y[..|y| - 1]);
      assert (x + y)[..|x + y| - 1] == x + y[..|y| - 1];
    }
  }

  lemma {:induction false} InvalidationCounts(order: seq<RegionId>, reachable: set<RegionId>)
    ensures Stops(Invalidations(order, reachable)) == 0 && Reports(Invalidations(order, reachable)) == 0
  {
    if order != [] && order[0] in reachable {
      InvalidationCounts(order[1..], reachable);
      CountsAdd([InvalidateHome(order[0], true)], Invalidations(order[1..], reachable));
    }
  }

  /** How far a worker in each phase has got. */
  ghost predicate Progress(w: Worker, inputs: seq<Input>, sent: seq<Effect>) {
    && (w.stopUnsent <==> Stops(sent) == 0) && Stops(sent) <= 1
    && (Stops(sent) == 1 ==> Released(w.plan, inputs))
    && match w.phase
       case Idle => w.stopUnsent && !w.replyDue && Reports(sent) == 0 && !Started(inputs) && NoTimeout(inputs)
       case AwaitingBeginAcks =>
         && w.stopUnsent && w.replyDue && Reports(sent) == 0 && Started(inputs)
         && w.remaining != {}
         && exists k: nat :: PartlyReleased(w, inputs, k)
       case AwaitingShardStopped =>
         !w.stopUnsent && w.replyDue && Reports(sent) == 0 && Started(inputs)
       case Done =>
         && !w.replyDue && Reports(sent) == (if Started(inputs) then 1 else 0)
         && (Started(inputs) || !NoTimeout(inputs))
  }

  ghost predicate NoTimeout(inputs: seq<Input>) {
    forall i :: 0 <= i < |inputs| ==> !inputs[i].msg.Timeout?
  }

  /** Everyone but the remaining participants has let go since the start at `k`. */
  ghost predicate PartlyReleased(w: Worker, inputs: seq<Input>, k: nat) {
    && k < |inputs| && inputs[k].msg.Start?
    && forall p :: p in w.plan.participants - w.remaining ==> ReleasedWithin(w.plan, inputs, k, |inputs|, p)
  }

  lemma StartedExtends(inputs: seq<Input>, x: Input)
    ensures Started(inputs + [x]) <==> Started(inputs) || (x.msg.Start? && NoTimeout(inputs))
    ensures NoTimeout(inputs + [x]) <==> NoTimeout(inputs) && !x.msg.Timeout?
  {
    var more := inputs + [x];
    assert more[|inputs|] == x;
    if Started(inputs) {
      var k :| 0 <= k < |inputs| && inputs[k].msg.Start? && forall i :: 0 <= i < k ==> !inputs[i].msg.Timeout?;
      assert more[k].msg.Start? && forall i :: 0 <= i < k ==> !more[i].msg.Timeout?;
    }
    if Started(more) {
      var k :| 0 <= k < |more| && more[k].msg.Start? && forall i :: 0 <= i < k ==> !more[i].msg.Timeout?;
      if k < |inputs| {
        assert inputs[k].msg.Start? && forall i :: 0 <= i < k ==> !inputs[i].msg.Timeout? by {
          forall i | 0 <= i < k ensures !inputs[i].msg.Timeout? { assert more[i] == inputs[i]; }
        }
      } else {
        forall i | 0 <= i < |inputs| ensures !inputs[i].msg.Timeout? { assert more[i] == inputs[i]; }
      }
    }
    if NoTimeout(more) {
      forall i | 0 <= i < |inputs| ensures !inputs[i].msg.Timeout? { assert more[i] == inputs[i]; }
    }
  }

  lemma WithinExtends(plan: HandoffPlan, inputs: seq<Input>, x: Input, k: nat, n: nat, p: RegionId)
    requires ReleasedWithin(plan, inputs, k, n, p)
    ensures forall m :: n <= m <= |inputs| + 1 ==> ReleasedWithin(plan, inputs + [x], k, m, p)
  {
    var i :| k < i < n <= |inputs| && IsRelease(plan, p, inputs[i].msg);
    assert (inputs + [x])[i] == inputs[i];
  }

  lemma AllReleasedExtends(plan: HandoffPlan, inputs: seq<Input>, x: Input, k: nat, n: nat)
    requires AllReleased(plan, inputs, k, n)
    ensures AllReleased(plan, inputs + [x], k, n) && AllReleased(plan, inputs + [x], k, |inputs| + 1)
  {
    hide ReleasedWithin, IsRelease;
    assert (inputs + [x])[k] == inputs[k];
    forall p | p in plan.participants
      ensures ReleasedWithin(plan, inputs + [x], k, n, p) && ReleasedWithin(plan, inputs + [x], k, |inputs| + 1, p)
    {
      WithinExtends(plan, inputs, x, k, n, p);
    }
  }

  lemma ReleasedExtends(plan: HandoffPlan, inputs: seq<Input>, x: Input)
    requires Released(plan, inputs)
    ensures Released(plan, inputs + [x])
  {
    hide AllReleased;
    var k: nat :| AllReleased(plan, inputs, k, |inputs|);
    AllReleasedExtends(plan, inputs, x, k, |inputs|);
    assert |inputs + [x]| == |inputs| + 1;
  }

  lemma OneEffect(e: Effect)
    ensures Stops([e]) == (if e.CommandStop? then 1 else 0) && Reports([e]) == (if e.Report? then 1 else 0)
  {
    assert [e][..0] == [];
  }

  lemma NoEffect()
    ensures Stops([]) == 0 && Reports([]) == 0
  {
  }

  // ----- What one message adds to the counts -----

  ghost predicate Counts(w: Worker, v: Worker, more: seq<Effect>) {
    && v.plan == w.plan
    && Stops(more) == (if w.stopUnsent && !v.stopUnsent then 1 else 0)
    && Reports(more) == (if w.replyDue && !v.replyDue then 1 else 0)
    && (v.stopUnsent ==> w.stopUnsent)
  }

  lemma FinishedCounts(w: Worker, ok: bool)
    ensures Counts(w, Finished(w, ok).0, Finished(w, ok).1) || (w.phase.Done? && Finished(w, ok) == (w, []))
    ensures Report(true) in Finished(w, ok).1 ==> ok
  {
    hide Stops, Reports;
    NoEffect();
    OneEffect(Report(ok));
  }

  lemma StopCommandedCounts(w: Worker, links: Links)
    requires !w.phase.Done?
    ensures Counts(w, StopCommanded(w, links).0, StopCommanded(w, links).1)
    ensures Report(true) !in StopCommanded(w, links).1
  {
    hide Stops, Reports;
    NoEffect();
    OneEffect(CommandStop(links.handoff));
    OneEffect(Report(false));
    CountsAdd([CommandStop(false)], [Report(false)]);
    CountsAdd([CommandStop(false)], []);
  }

  lemma BegunCounts(w: Worker, links: Links)
    requires w.phase.Idle? && w.stopUnsent
    ensures Counts(w.(replyDue := true), Begun(w, links).0, Begun(w, links).1)
    ensures Report(true) !in Begun(w, links).1
  {
    hide Invalidations, StopCommanded, Finished;
    var v := w.(phase := AwaitingBeginAcks, remaining := w.plan.participants, replyDue := true);
    var sends := Invalidations(Sorted(w.plan.participants), links.begin);
    InvalidationCounts(Sorted(w.plan.participants), links.begin);
    InvalidationsOnly(Sorted(w.plan.participants), links.begin);
    if v.remaining == {} {
      StopCommandedCounts(v, links);
    } else {
      FinishedCounts(v, false);
      CountsAdd(sends, Finished(v, false).1);
    }
  }

  lemma {:induction false} InvalidationsOnly(order: seq<RegionId>, reachable: set<RegionId>)
    ensures forall e :: e in Invalidations(order, reachable) ==> e.InvalidateHome?
  {
    if order != [] && order[0] in reachable {
      InvalidationsOnly(order[1..], reachable);
    }
  }

  /** Every message moves the phase forward or not at all; success is reported only in the last
      waiting phase and only on evidence. */
  lemma StepForward(w: Worker, m: Msg, links: Links)
    requires w.phase.Idle? ==> w.stopUnsent
    ensures var (v, more) := Received(w, m, links);
      && v.plan == w.plan
      && Rank(w.phase) <= Rank(v.phase)
      && (Report(true) in more ==> w.phase.AwaitingShardStopped? && IsEvidence(w.plan, m))
  {
    hide Invalidations, IsEvidence;
    if w.phase.Idle? && m.Start? {
      BegunCounts(w, links);
    }
  }

  // ----- Progress is kept by every message -----

  lemma StartStep(w: Worker, inputs: seq<Input>, sent: seq<Effect>, x: Input)
    requires Progress(w, inputs, sent) && w.phase.Idle? && x.msg.Start?
    ensures Progress(Begun(w, x.links).0, inputs + [x], sent + Begun(w, x.links).1)
  {
    hide Started, NoTimeout, Released, AllReleased, PartlyReleased, Invalidations, ReleasedWithin, Sorted;
    StartedExtends(inputs, x);
    CountsAdd(sent, Begun(w, x.links).1);
    BegunCounts(w, x.links);
    if w.plan.participants == {} {
      AllReleasedNow(w.plan, inputs, x);
    } else {
      PartlyReleasedNow(w, inputs, x);
    }
  }

  lemma IdleStep(w: Worker, inputs: seq<Input>, sent: seq<Effect>, x: Input)
    requires Progress(w, inputs, sent) && w.phase.Idle?
    ensures Progress(Received(w, x.msg, x.links).0, inputs + [x], sent + Received(w, x.msg, x.links).1)
  {
    hide Started, NoTimeout, Released, PartlyReleased, Begun;
    StartedExtends(inputs, x);
    if x.msg.Start? {
      StartStep(w, inputs, sent, x);
    } else {
      assert sent + [] == sent;
    }
  }

  lemma AllReleasedNow(plan: HandoffPlan, inputs: seq<Input>, x: Input)
    requires x.msg.Start? && plan.participants == {}
    ensures Released(plan, inputs + [x])
  {
    assert AllReleased(plan, inputs + [x], |inputs|, |inputs + [x]|);
  }

  lemma PartlyReleasedNow(v: Worker, inputs: seq<Input>, x: Input)
    requires x.msg.Start?
    ensures forall w: Worker :: w.plan == v.plan && w.remaining == w.plan.participants ==>
      PartlyReleased(w, inputs + [x], |inputs|)
  {
  }

  lemma BeginStep(w: Worker, inputs: seq<Input>, sent: seq<Effect>, x: Input)
    requires Progress(w, inputs, sent) && w.phase.AwaitingBeginAcks?
    ensures Progress(Received(w, x.msg, x.links).0, inputs + [x], sent + Received(w, x.msg, x.links).1)
  {
    hide Started, NoTimeout, Released, AllReleased, PartlyReleased, Invalidations, ReleasedWithin, Stops, Reports;
    NoEffect();
    StartedExtends(inputs, x);
    var (v, more) := Received(w, x.msg, x.links);
    CountsAdd(sent, more);
    var k: nat :| PartlyReleased(w, inputs, k);
    if x.msg.Timeout? || (x.msg.BeginAck? && x.msg.begin != Ack(w.plan.shard, w.plan.shard)) {
      FinishedCounts(w, false);
    } else if x.msg.BeginAck? || x.msg.RegionTerminated? {
      var u := w.(remaining := w.remaining - {x.msg.region});
      PartlyReleasedMore(w, inputs, x, k);
      if u.remaining == {} {
        LastRelease(u, inputs + [x], k);
        StopCommandedCounts(u, x.links);
      } else {
        assert sent + more == sent;
      }
    } else {
      PartlyReleasedSame(w, inputs, x, k);
      assert sent + more == sent;
    }
  }

  lemma PartlyReleasedSame(w: Worker, inputs: seq<Input>, x: Input, k: nat)
    requires PartlyReleased(w, inputs, k)
    ensures PartlyReleased(w, inputs + [x], k)
  {
    hide ReleasedWithin, IsRelease;
    assert (inputs + [x])[k] == inputs[k];
    forall p | p in w.plan.participants - w.remaining ensures ReleasedWithin(w.plan, inputs + [x], k, |inputs + [x]|, p) {
      WithinExtends(w.plan, inputs, x, k, |inputs|, p);
    }
  }

  lemma PartlyReleasedMore(w: Worker, inputs: seq<Input>, x: Input, k: nat)
    requires PartlyReleased(w, inputs, k)
    requires x.msg.BeginAck? || x.msg.RegionTerminated?
    requires IsRelease(w.plan, x.msg.region, x.msg)
    ensures PartlyReleased(w.(remaining := w.remaining - {x.msg.region}), inputs + [x], k)
  {
    PartlyReleasedSame(w, inputs, x, k);
    var more := inputs + [x];
    assert more[|inputs|] == x;
    assert ReleasedWithin(w.plan, more, k, |more|, x.msg.region);
  }

  lemma LastRelease(u: Worker, inputs: seq<Input>, k: nat)
    requires PartlyReleased(u, inputs, k) && u.remaining == {}
    ensures Released(u.plan, inputs)
  {
    hide ReleasedWithin;
    assert AllReleased(u.plan, inputs, k, |inputs|);
  }

  lemma StoppedCounts(w: Worker, m: Msg, links: Links)
    requires w.phase.AwaitingShardStopped? && w.replyDue
    ensures var (v, more) := Received(w, m, links);
      && Counts(w, v, more) && v.stopUnsent == w.stopUnsent
      && (if v.replyDue then v.phase.AwaitingShardStopped? else v.phase.Done?)
  {
    hide IsEvidence, Stops, Reports;
    NoEffect();
    OneEffect(Report(true));
    OneEffect(Report(false));
    OneEffect(AskCompletion(links.complete));
    CountsAdd([AskCompletion(false)], [Report(false)]);
  }

  lemma StoppedStep(w: Worker, inputs: seq<Input>, sent: seq<Effect>, x: Input)
    requires Progress(w, inputs, sent) && w.phase.AwaitingShardStopped?
    ensures Progress(Received(w, x.msg, x.links).0, inputs + [x], sent + Received(w, x.msg, x.links).1)
  {
    hide Started, NoTimeout, Released, AllReleased, PartlyReleased, IsEvidence, Received;
    StartedExtends(inputs, x);
    ReleasedExtends(w.plan, inputs, x);
    CountsAdd(sent, Received(w, x.msg, x.links).1);
    StoppedCounts(w, x.msg, x.links);
  }

  lemma DoneStep(w: Worker, inputs: seq<Input>, sent: seq<Effect>, x: Input)
    requires Progress(w, inputs, sent) && w.phase.Done?
    ensures Progress(Received(w, x.msg, x.links).0, inputs + [x], sent + Received(w, x.msg, x.links).1)
  {
    hide Started, NoTimeout, Released, PartlyReleased;
    StartedExtends(inputs, x);
    if Stops(sent) == 1 {
      ReleasedExtends(w.plan, inputs, x);
    }
    assert sent + [] == sent;
  }

  lemma {:induction false} RunProgress(plan: HandoffPlan, inputs: seq<Input>)
    ensures var (w, sent) := Run(Fresh(plan), inputs);
      w.plan == plan && Progress(w, inputs, sent)
  {
    hide Progress, Received;
    if inputs == [] {
      NoProgressYet(plan);
    } else {
      var before := inputs[..|inputs| - 1];
      var x := inputs[|inputs| - 1];
      assert inputs == before + [x];
      RunProgress(plan, before);
      var (w, sent) := Run(Fresh(plan), before);
      KeepsProgress(w, before, sent, x);
    }
  }

  lemma NoProgressYet(plan: HandoffPlan)
    ensures Progress(Fresh(plan), [], [])
  {
  }

  lemma KeepsProgress(w: Worker, inputs: seq<Input>, sent: seq<Effect>, x: Input)
    requires Progress(w, inputs, sent)
    ensures Progress(Received(w, x.msg, x.links).0, inputs + [x], sent + Received(w, x.msg, x.links).1)
    ensures Received(w, x.msg, x.links).0.plan == w.plan
  {
    hide Received, Started, Released, PartlyReleased;
    StepForward(w, x.msg, x.links);
    match w.phase {
      case Idle => IdleStep(w, inputs, sent, x);
      case AwaitingBeginAcks => BeginStep(w, inputs, sent, x);
      case AwaitingShardStopped => StoppedStep(w, inputs, sent, x);
      case Done => DoneStep(w, inputs, sent, x);
    }
  }

  // ----- The theorems -----

  /** At most one stop command, sent only after every participant let go; at most one report, and
      exactly one once a started worker is done. */
  lemma WorkerReportsOnce(plan: HandoffPlan, inputs: seq<Input>)
    ensures var (w, sent) := Run(Fresh(plan), inputs);
      && Stops(sent) <= 1
      && (Stops(sent) == 1 ==> Released(plan, inputs))
      && Reports(sent) <= 1
      && (w.phase.Done? && Started(inputs) ==> Reports(sent) == 1)
  {
    hide Run, Released, PartlyReleased;
    RunProgress(plan, inputs);
  }

  /** The phase never moves back. */
  lemma {:induction false} WorkerPhaseForward(plan: HandoffPlan, inputs: seq<Input>, n: nat)
    requires n <= |inputs|
    ensures Rank(Run(Fresh(plan), inputs[..n]).0.phase) <= Rank(Run(Fresh(plan), inputs).0.phase)
    decreases |inputs|
  {
    hide Received;
    if n < |inputs| {
      var before := inputs[..|inputs| - 1];
      assert before[..n] == inputs[..n];
      WorkerPhaseForward(plan, before, n);
      RunProgress(plan, before);
      StepForward(Run(Fresh(plan), before).0, inputs[|inputs| - 1].msg, inputs[|inputs| - 1].links);
    } else {
      assert inputs[..n] == inputs;
    }
  }

  /** Success is reported only after a start, then the release of every participant, then evidence
      that the owner stopped the shard, delivered in this order. */
  lemma {:induction false} WorkerSuccessJustified(plan: HandoffPlan, inputs: seq<Input>)
    ensures Report(true) in Run(Fresh(plan), inputs).1 ==> Justified(plan, inputs)
  {
    hide Received, Justified;
    if inputs != [] && Report(true) in Run(Fresh(plan), inputs).1 {
      var before := inputs[..|inputs| - 1];
      var x := inputs[|inputs| - 1];
      assert inputs == before + [x];
      var (w, sent) := Run(Fresh(plan), before);
      if Report(true) in sent {
        WorkerSuccessJustified(plan, before);
        JustifiedExtends(plan, before, x);
      } else {
        RunProgress(plan, before);
        StepForward(w, x.msg, x.links);
        JustifiedNow(plan, before, x);
      }
    }
  }

  lemma JustifiedExtends(plan: HandoffPlan, inputs: seq<Input>, x: Input)
    requires Justified(plan, inputs)
    ensures Justified(plan, inputs + [x])
  {
    hide AllReleased, IsEvidence;
    var k: nat, j: nat :| AllReleased(plan, inputs, k, j) && j < |inputs| && IsEvidence(plan, inputs[j].msg);
    AllReleasedExtends(plan, inputs, x, k, j);
    assert (inputs + [x])[j] == inputs[j];
  }

  lemma JustifiedNow(plan: HandoffPlan, inputs: seq<Input>, x: Input)
    requires Released(plan, inputs) && IsEvidence(plan, x.msg)
    ensures Justified(plan, inputs + [x])
  {
    hide AllReleased, IsEvidence;
    var k: nat :| AllReleased(plan, inputs, k, |inputs|);
    AllReleasedExtends(plan, inputs, x, k, |inputs|);
    assert (inputs + [x])[|inputs|] == x;
  }

  // ----- A handoff that nothing disturbs succeeds -----

  ghost predicate OnCourse(w: Worker, sent: seq<Effect>, plan: HandoffPlan, covered: set<RegionId>) {
    && w.plan == plan
    && match w.phase
       case Idle => false
       case AwaitingBeginAcks => w.remaining == plan.participants - covered && w.remaining != {} && w.stopUnsent && w.replyDue
       case AwaitingShardStopped => w.replyDue
       case Done => Report(true) in sent
  }

  /** Messages that are releases by somebody. */
  ghost predicate AreReleases(plan: HandoffPlan, releases: seq<Msg>) {
    forall i :: 0 <= i < |releases| ==>
      (releases[i].BeginAck? || releases[i].RegionTerminated?) && IsRelease(plan, releases[i].region, releases[i])
  }

  ghost function Releasers(releases: seq<Msg>): set<RegionId>
    requires forall i :: 0 <= i < |releases| ==> releases[i].BeginAck? || releases[i].RegionTerminated?
  {
    set i | 0 <= i < |releases| :: releases[i].region
  }

  /** All sends are accepted while these messages are processed. */
  function Delivered(plan: HandoffPlan, msgs: seq<Msg>): seq<Input> {
    seq(|msgs|, i requires 0 <= i < |msgs| => Input(msgs[i], Links(plan.participants, true, true)))
  }

  lemma RunAppends(w: Worker, inputs: seq<Input>, x: Input)
    ensures var (mid, sent) := Run(w, inputs);
      Run(w, inputs + [x]) == (Received(mid, x.msg, x.links).0, sent + Received(mid, x.msg, x.links).1)
  {
    assert (inputs + [x])[..|inputs + [x]| - 1] == inputs;
  }

  lemma CourseStarts(plan: HandoffPlan)
    ensures var (w, sent) := Run(Fresh(plan), Delivered(plan, [Start]));
      OnCourse(w, sent, plan, {})
  {
    hide Invalidations, Sorted;
    RunAppends(Fresh(plan), [], Input(Start, Links(plan.participants, true, true)));
    assert Delivered(plan, [Start]) == [] + [Input(Start, Links(plan.participants, true, true))];
  }

  lemma CourseKept(w: Worker, sent: seq<Effect>, plan: HandoffPlan, covered: set<RegionId>, m: Msg, links: Links)
    requires OnCourse(w, sent, plan, covered) && links.handoff
    requires (m.BeginAck? || m.RegionTerminated?) && IsRelease(plan, m.region, m)
    ensures OnCourse(Received(w, m, links).0, sent + Received(w, m, links).1, plan, covered + {m.region})
  {
  }

  lemma {:induction false} CourseHeld(plan: HandoffPlan, releases: seq<Msg>)
    requires AreReleases(plan, releases)
    ensures var (w, sent) := Run(Fresh(plan), Delivered(plan, [Start] + releases));
      OnCourse(w, sent, plan, Releasers(releases))
  {
    hide Run, OnCourse, IsRelease, Received;
    if releases == [] {
      CourseStarts(plan);
      assert [Start] + releases == [Start];
      assert Releasers(releases) == {};
    } else {
      var init := releases[..|releases| - 1];
      var m := releases[|releases| - 1];
      CourseHeld(plan, init);
      var x := Input(m, Links(plan.participants, true, true));
      assert Delivered(plan, [Start] + releases) == Delivered(plan, [Start] + init) + [x];
      RunAppends(Fresh(plan), Delivered(plan, [Start] + init), x);
      var (w, sent) := Run(Fresh(plan), Delivered(plan, [Start] + init));
      CourseKept(w, sent, plan, Releasers(init), m, x.links);
      assert releases == init + [m];
      assert Releasers(releases) == Releasers(init) + {m.region} by {
        ReleasersSplit(releases);
      }
    }
  }

  lemma ReleasersSplit(releases: seq<Msg>)
    requires releases != []
    requires forall i :: 0 <= i < |releases| ==> releases[i].BeginAck? || releases[i].RegionTerminated?
    ensures Releasers(releases) == Releasers(releases[..|releases| - 1]) + {releases[|releases| - 1].region}
  {
    forall r | r in Releasers(releases)
      ensures r in Releasers(releases[..|releases| - 1]) || r == releases[|releases| - 1].region
    {
      var i :| 0 <= i < |releases| && releases[i].region == r;
      if i < |releases| - 1 {
        assert releases[..|releases| - 1][i].region == r;
      }
    }
    forall r | r in Releasers(releases[..|releases| - 1]) ensures r in Releasers(releases) {
      var i :| 0 <= i < |releases| - 1 && releases[..|releases| - 1][i].region == r;
      assert releases[i].region == r;
    }
  }

  /** If every send is accepted, every participant lets go in some order and then the owner is seen
      to have stopped, the worker reports success. */
  lemma HandoffSucceeds(plan: HandoffPlan, releases: seq<Msg>, evidence: Msg)
    requires AreReleases(plan, releases) && plan.participants <= Releasers(releases)
    requires IsEvidence(plan, evidence)
    ensures Report(true) in Run(Fresh(plan), Delivered(plan, [Start] + releases + [evidence])).1
  {
    hide Run, Releasers, IsRelease;
    CourseHeld(plan, releases);
    var x := Input(evidence, Links(plan.participants, true, true));
    assert Delivered(plan, [Start] + releases + [evidence]) == Delivered(plan, [Start] + releases) + [x];
    RunAppends(Fresh(plan), Delivered(plan, [Start] + releases), x);
    var (w, sent) := Run(Fresh(plan), Delivered(plan, [Start] + releases));
    assert w.phase.AwaitingShardStopped? ==> Received(w, evidence, x.links).1 == [Report(true)];
  }

  // ----- Participants are told before the owner -----

  /** One accepted invalidation for each region, in order. */
  function Announcements(order: seq<RegionId>): seq<Effect> {
    seq(|order|, i requires 0 <= i < |order| => InvalidateHome(order[i], true))
  }

  lemma {:induction false} InvalidationsSent(order: seq<RegionId>, reachable: set<RegionId>, k: nat)
    requires k <= |order| && (forall i :: 0 <= i < k ==> order[i] in reachable) && (k < |order| ==> order[k] !in reachable)
    ensures Invalidations(order, reachable) ==
      Announcements(order[..k]) + if k < |order| then [InvalidateHome(order[k], false)] else []
  {
    if k > 0 {
      InvalidationsSent(order[1..], reachable, k - 1);
      assert order[1..][..k - 1] == order[1..k];
      assert Announcements(order[..k]) == [InvalidateHome(order[0], true)] + Announcements(order[1..k]);
    }
  }

  /** The first region of an order that the transport does not reach, or the length. */
  function FirstRefused(order: seq<RegionId>, reachable: set<RegionId>): (k: nat)
    ensures k <= |order| && (forall i :: 0 <= i < k ==> order[i] in reachable) && (k < |order| ==> order[k] !in reachable)
  {
    if order == [] || order[0] !in reachable then 0 else FirstRefused(order[1..], reachable) + 1
  }

  /** Starting sends one accepted invalidation to each participant in identifier order and then waits for all
      of them; or, at the first participant that is not reached, that refusal is the last invalidation and the
      failure is reported. Without participants the owner is told to stop at once. */
  lemma StartTells(w: Worker, links: Links)
    requires w.phase.Idle? && w.stopUnsent
    ensures var order := Sorted(w.plan.participants);
      var k := FirstRefused(order, links.begin);
      var (v, sent) := Received(w, Start, links);
      && (order != [] && k == |order| ==>
            sent == Announcements(order) && v.phase.AwaitingBeginAcks? && v.remaining == w.plan.participants)
      && (k < |order| ==>
            sent == Announcements(order[..k]) + [InvalidateHome(order[k], false)] + [Report(false)] && v.phase.Done?)
      && (order == [] ==> sent == [CommandStop(links.handoff)] + if links.handoff then [] else [Report(false)])
  {
    hide Sorted, Invalidations, Announcements, FirstRefused;
    var order := Sorted(w.plan.participants);
    var k := FirstRefused(order, links.begin);
    InvalidationsSent(order, links.begin, k);
    AllReached(w.plan.participants, links.begin);
    assert order[..|order|] == order;
    assert Announcements(order) + [] == Announcements(order);
  }

  lemma AllReached(participants: set<RegionId>, reachable: set<RegionId>)
    ensures FirstRefused(Sorted(participants), reachable) == |Sorted(participants)| <==> participants <= reachable
    ensures participants == {} <==> Sorted(participants) == []
  {
    hide FirstRefused, Sorted;
    var order := Sorted(participants);
    var k := FirstRefused(order, reachable);
    if k < |order| {
      assert order[k] in participants;
    } else {
      forall p | p in participants ensures p in reachable {
        assert p in order;
      }
    }
    if order != [] {
      assert order[0] in participants;
    }
  }

  ghost predicate Invited(sent: seq<Effect>, n: int, p: RegionId) {
    exists i :: 0 <= i < n <= |sent| && sent[i] == InvalidateHome(p, true)
  }

  /** Every participant accepted an invalidation before position `n`. */
  ghost predicate AllInvited(plan: HandoffPlan, sent: seq<Effect>, n: int) {
    forall p :: p in plan.participants ==> Invited(sent, n, p)
  }

  /** Who was sent an invalidation, in order. */
  function Invitees(sent: seq<Effect>): seq<RegionId> {
    if sent == [] then []
    else
      var rest, last := Invitees(sent[..|sent| - 1]), sent[|sent| - 1];
      if last.InvalidateHome? then rest + [last.region] else rest
  }

  ghost predicate Inviting(w: Worker, sent: seq<Effect>) {
    && (w.phase.Idle? ==> w.stopUnsent && sent == [])
    && (w.phase.AwaitingBeginAcks? ==> AllInvited(w.plan, sent, |sent|))
    && (forall n :: 0 <= n < |sent| && sent[n].CommandStop? ==> AllInvited(w.plan, sent, n))
    && Invitees(sent) <= Sorted(w.plan.participants)
  }

  lemma InvitedMore(sent: seq<Effect>, more: seq<Effect>, n: int, p: RegionId)
    requires Invited(sent, n, p)
    ensures forall m :: n <= m <= |sent + more| ==> Invited(sent + more, m, p)
  {
    var i :| 0 <= i < n <= |sent| && sent[i] == InvalidateHome(p, true);
    assert (sent + more)[i] == sent[i];
  }

  lemma AllInvitedMore(plan: HandoffPlan, sent: seq<Effect>, more: seq<Effect>, n: int)
    requires AllInvited(plan, sent, n)
    ensures forall m :: n <= m <= |sent + more| ==> AllInvited(plan, sent + more, m)
  {
    hide Invited;
    forall p | p in plan.participants ensures forall m :: n <= m <= |sent + more| ==> Invited(sent + more, m, p) {
      InvitedMore(sent, more, n, p);
    }
  }

  lemma {:induction false} InviteesSame(sent: seq<Effect>, more: seq<Effect>)
    requires forall e :: e in more ==> !e.InvalidateHome?
    ensures Invitees(sent + more) == Invitees(sent)
  {
    if more == [] {
      assert sent + more == sent;
    } else {
      InviteesSame(sent, more[..|more| - 1]);
      assert (sent + more)[..|sent + more| - 1] == sent + more[..|more| - 1];
      assert more[|more| - 1] in more;
    }
  }

  lemma {:induction false} InviteesAnnounced(order: seq<RegionId>)
    ensures Invitees(Announcements(order)) == order
  {
    if order != [] {
      var init := order[..|order| - 1];
      InviteesAnnounced(init);
      assert Announcements(order)[..|order| - 1] == Announcements(init);
      assert order == init + [order[|order| - 1]];
    }
  }

  /** After the start a worker sends no invalidation, and the stop command only when it has waited for everyone. */
  lemma LaterEffects(w: Worker, m: Msg, links: Links)
    requires !w.phase.Idle?
    ensures var (v, more) := Received(w, m, links);
      && v.plan == w.plan && !v.phase.Idle?
      && (v.phase.AwaitingBeginAcks? ==> w.phase.AwaitingBeginAcks?)
      && (forall e :: e in more ==> !e.InvalidateHome?)
      && (forall e :: e in more && e.CommandStop? ==> w.phase.AwaitingBeginAcks?)
  {
    hide IsEvidence;
  }

  lemma StartInvites(w: Worker, links: Links)
    requires w.phase.Idle? && w.stopUnsent
    ensures Inviting(Received(w, Start, links).0, Received(w, Start, links).1)
    ensures Received(w, Start, links).0.plan == w.plan
  {
    hide Sorted, Announcements, FirstRefused, Received, Inviting;
    var order := Sorted(w.plan.participants);
    var k := FirstRefused(order, links.begin);
    var (v, sent) := Received(w, Start, links);
    StartTells(w, links);
    StepForward(w, Start, links);
    LeavesIdle(w, links);
    AllReached(w.plan.participants, links.begin);
    if order == [] {
      AloneInvites(v, sent);
    } else if k == |order| {
      AllInvite(v, order);
    } else {
      RefusedInvites(v, order, k);
    }
  }

  lemma AloneInvites(v: Worker, sent: seq<Effect>)
    requires v.plan.participants == {} && !v.phase.Idle?
    requires sent == [CommandStop(true)] || sent == [CommandStop(false)] + [Report(false)]
    ensures Inviting(v, sent)
  {
    hide Invitees;
    assert Sorted(v.plan.participants) == [];
    InviteesSame([], sent);
    assert [] + sent == sent;
    ReportInvitesNobody();
  }

  lemma AllInvite(v: Worker, order: seq<RegionId>)
    requires order == Sorted(v.plan.participants) && !v.phase.Idle?
    ensures Inviting(v, Announcements(order))
  {
    hide Sorted, Invitees, Announcements, AllInvited;
    AnnouncedAll(v.plan, order);
    InviteesAnnounced(order);
  }

  lemma RefusedInvites(v: Worker, order: seq<RegionId>, k: nat)
    requires order == Sorted(v.plan.participants) && k < |order| && v.phase.Done?
    ensures Inviting(v, Announcements(order[..k]) + [InvalidateHome(order[k], false)] + [Report(false)])
  {
    hide Sorted, Invitees, Announcements, AllInvited;
    InviteeRefused(order, k);
  }

  lemma LeavesIdle(w: Worker, links: Links)
    requires w.phase.Idle? && w.stopUnsent
    ensures !Received(w, Start, links).0.phase.Idle?
    ensures w.plan.participants == {} ==> !Received(w, Start, links).0.phase.AwaitingBeginAcks?
  {
    hide Invalidations;
  }

  lemma AnnouncedAll(plan: HandoffPlan, order: seq<RegionId>)
    requires order == Sorted(plan.participants)
    ensures |Announcements(order)| == |order| && AllInvited(plan, Announcements(order), |order|)
    ensures forall i :: 0 <= i < |Announcements(order)| ==> !Announcements(order)[i].CommandStop?
  {
    hide Sorted;
    forall p | p in plan.participants ensures Invited(Announcements(order), |order|, p) {
      assert p in order;
      var i :| 0 <= i < |order| && order[i] == p;
      assert Announcements(order)[i] == InvalidateHome(p, true);
    }
  }

  lemma InviteeRefused(order: seq<RegionId>, k: nat)
    requires k < |order|
    ensures var sent := Announcements(order[..k]) + [InvalidateHome(order[k], false)] + [Report(false)];
      Invitees(sent) == order[..k + 1] && forall i :: 0 <= i < |sent| ==> !sent[i].CommandStop?
  {
    var announced := Announcements(order[..k]);
    var refused := announced + [InvalidateHome(order[k], false)];
    InviteesAnnounced(order[..k]);
    assert refused[..|refused| - 1] == announced;
    assert order[..k + 1] == order[..k] + [order[k]];
    InviteesSame(refused, [Report(false)]);
  }

  lemma InvitingKept(w: Worker, sent: seq<Effect>, x: Input)
    requires Inviting(w, sent)
    ensures Inviting(Received(w, x.msg, x.links).0, sent + Received(w, x.msg, x.links).1)
    ensures Received(w, x.msg, x.links).0.plan == w.plan
  {
    hide Received, AllInvited, Sorted;
    var (v, more) := Received(w, x.msg, x.links);
    if w.phase.Idle? {
      assert sent + more == more;
      if x.msg.Start? {
        StartInvites(w, x.links);
      } else {
        IdleSilent(w, x.msg, x.links);
      }
    } else {
      LaterEffects(w, x.msg, x.links);
      InviteesSame(sent, more);
      forall n | 0 <= n < |sent + more| && (sent + more)[n].CommandStop? ensures AllInvited(w.plan, sent + more, n) {
        if n < |sent| {
          AllInvitedMore(w.plan, sent, more, n);
        } else {
          assert (sent + more)[n] in more;
          AllInvitedMore(w.plan, sent, more, |sent|);
        }
      }
      if v.phase.AwaitingBeginAcks? {
        AllInvitedMore(w.plan, sent, more, |sent|);
      }
    }
  }

  lemma IdleSilent(w: Worker, m: Msg, links: Links)
    requires w.phase.Idle? && w.stopUnsent && !m.Start?
    ensures var (v, more) := Received(w, m, links);
      && v.plan == w.plan && !v.phase.AwaitingBeginAcks? && (v.phase.Idle? ==> v.stopUnsent && more == [])
      && forall i :: 0 <= i < |more| ==> more[i].Report?
    ensures Invitees(Received(w, m, links).1) == []
  {
    hide Invitees, IsEvidence, Begun;
    ReportInvitesNobody();
  }

  lemma ReportInvitesNobody()
    ensures Invitees([]) == [] && Invitees([Report(false)]) == []
  {
    assert [Report(false)][..0] == [];
  }

  lemma {:induction false} RunInviting(plan: HandoffPlan, inputs: seq<Input>)
    ensures var (w, sent) := Run(Fresh(plan), inputs); w.plan == plan && Inviting(w, sent)
  {
    hide Inviting, Received;
    if inputs == [] {
      NotInvitingYet(plan);
    } else {
      RunInviting(plan, inputs[..|inputs| - 1]);
      var (w, sent) := Run(Fresh(plan), inputs[..|inputs| - 1]);
      InvitingKept(w, sent, inputs[|inputs| - 1]);
    }
  }

  lemma NotInvitingYet(plan: HandoffPlan)
    ensures Inviting(Fresh(plan), [])
  {
  }

  /** In every run the owner is told to stop only after every participant accepted an invalidation, and
      invalidations go out in identifier order, at most one to each participant. */
  lemma WorkerTellsBeforeStop(plan: HandoffPlan, inputs: seq<Input>, n: nat)
    ensures var sent := Run(Fresh(plan), inputs).1;
      && (n < |sent| && sent[n].CommandStop? ==>
            forall p :: p in plan.participants ==> exists i :: 0 <= i < n && sent[i] == InvalidateHome(p, true))
      && Invitees(sent) <= Sorted(plan.participants)
  {
    hide Run, Sorted, Invitees;
    RunInviting(plan, inputs);
    var sent := Run(Fresh(plan), inputs).1;
    if n < |sent| && sent[n].CommandStop? {
      forall p | p in plan.participants ensures exists i :: 0 <= i < n && sent[i] == InvalidateHome(p, true) {
        assert Invited(sent, n, p);
      }
    }
  }

  // ----- Every message moves the handoff on, ends it or is ignored -----

  /** Replies that rule a success out while the owner is to stop the shard. */
  predicate Denies(plan: HandoffPlan, m: Msg) {
    !IsEvidence(plan, m) &&
    match m
    case Timeout => true
    case LocalForwarded(owner) => owner != ForwardedToLocalShard(plan.shard)
    case ShardObserved(reply) => reply != StartEntityStopper(plan.shard)
    case LocalCompleted(_) => true
    case RemoteStopped(_, _) => true
    case _ => false
  }

  /** A waiting worker is done, successfully or not, exactly on evidence or denial; a shard that needs an entity
      stopper makes it ask for completion; everything else is ignored. */
  lemma StopPhaseReplies(w: Worker, m: Msg, links: Links)
    requires w.phase.AwaitingShardStopped? && w.replyDue
    ensures var (v, sent) := Received(w, m, links);
      var asks := m == ShardObserved(StartEntityStopper(w.plan.shard));
      && (IsEvidence(w.plan, m) <==> sent == [Report(true)])
      && (Denies(w.plan, m) <==> sent == [Report(false)])
      && (asks && links.complete <==> sent == [AskCompletion(true)])
      && (asks && !links.complete <==> sent == [AskCompletion(false), Report(false)])
      && (sent == [] ==> v == w) && (v.phase.Done? <==> Report(true) in sent || Report(false) in sent)
  {
  }

  /** A worker waiting for acknowledgements fails exactly on a timeout or a reply that is not the matching
      acknowledgement, or when the owner cannot be reached after the last one. */
  lemma BeginPhaseReplies(w: Worker, m: Msg, links: Links)
    requires w.phase.AwaitingBeginAcks? && w.replyDue && w.stopUnsent
    ensures var (v, sent) := Received(w, m, links);
      var releases := (m.BeginAck? || m.RegionTerminated?) && IsRelease(w.plan, m.region, m);
      var last := releases && w.remaining - {m.region} == {};
      && (sent == [Report(false)] <==> m.Timeout? || (m.BeginAck? && !releases))
      && (last ==> sent == [CommandStop(links.handoff)] + if links.handoff then [] else [Report(false)])
      && (releases && !last ==> sent == [] && v == w.(remaining := w.remaining - {m.region}))
      && (!releases && !m.Timeout? && !m.BeginAck? ==> sent == [] && v == w)
  {
  }

  /** A timeout ends every worker. */
  lemma {:induction false} TimeoutEnds(plan: HandoffPlan, inputs: seq<Input>, n: nat)
    requires n < |inputs| && inputs[n].msg.Timeout?
    ensures Run(Fresh(plan), inputs).0.phase.Done?
  {
    hide Received;
    var init, last := inputs[..|inputs| - 1], inputs[|inputs| - 1];
    if n < |init| {
      TimeoutEnds(plan, init, n);
      DoneStays(Run(Fresh(plan), init).0, last);
    } else {
      TimesOut(Run(Fresh(plan), init).0, last);
    }
  }

  lemma DoneStays(w: Worker, x: Input)
    requires w.phase.Done?
    ensures Received(w, x.msg, x.links).0.phase.Done?
  {
  }

  lemma TimesOut(w: Worker, x: Input)
    requires x.msg.Timeout?
    ensures Received(w, x.msg, x.links).0.phase.Done?
  {
  }
}
