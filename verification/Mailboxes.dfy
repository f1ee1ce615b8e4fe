/** An actor's mailbox: a priority lane for system messages and a bounded lane for user messages. */
module Mailboxes {
  import opened Ids

  datatype SystemMessage =
    | Stop
    | Restart
    | Signal(subject: nat)
    | GatedSignal(subject: nat)
    | SupervisionFailure(child: nat)

  datatype Envelope<M> = Message(message: M) | Timer(message: M) | ReceiveTimeout(message: M) | Adapted(message: M)

  datatype Dequeued<M> = System(signal: SystemMessage) | User(envelope: Envelope<M>) | Closed

  datatype Refusal = WasClosed | WasFull

  /** `wired` says whether a scheduler has been installed. */
  datatype Box<M> = Box(system: seq<SystemMessage>, user: seq<Envelope<M>>, closed: bool, wired: bool)

  function New<M>(): Box<M> {
    Box([], [], false, false)
  }

  predicate Idle<M>(b: Box<M>) {
    b.system == [] && b.user == []
  }

  /** Whoever puts the first message into an idle, wired mailbox has to schedule the actor. */
  predicate Schedules<M>(b: Box<M>) {
    Idle(b) && b.wired
  }

  predicate Full<M>(b: Box<M>, capacity: Option<nat>) {
    capacity.Some? && |b.user| >= capacity.value
  }

  function UserAdded<M>(b: Box<M>, capacity: Option<nat>, e: Envelope<M>): Result<Box<M>, Refusal> {
    if b.closed then Err(WasClosed)
    else if Full(b, capacity) then Err(WasFull)
    else Ok(b.(user := b.user + [e]))
  }

  function Wrapped<M>(messages: seq<M>): seq<Envelope<M>> {
    seq(|messages|, i requires 0 <= i < |messages| => Message(messages[i]))
  }

  function Prepended<M>(b: Box<M>, messages: seq<M>): Result<Box<M>, Refusal> {
    if b.closed then Err(WasClosed) else Ok(b.(user := Wrapped(messages) + b.user))
  }

  function SystemAdded<M>(b: Box<M>, m: SystemMessage): Box<M> {
    if b.closed then b else b.(system := b.system + [m])
  }

  /** System messages first, then user messages, each in order of arrival. */
  function Taken<M>(b: Box<M>): (Box<M>, Option<Dequeued<M>>) {
    if b.system != [] then (b.(system := b.system[1..]), Some(System(b.system[0])))
    else if b.user != [] then (b.(user := b.user[1..]), Some(User(b.user[0])))
    else (b, if b.closed then Some(Closed) else None)
  }

  function ClosedBox<M>(b: Box<M>): Box<M> {
    b.(system := [], user := [], closed := true)
  }

  /** How many plain messages a lane holds. */
  function Messages<M>(user: seq<Envelope<M>>): nat {
    if user == [] then 0 else Messages(user[..|user| - 1]) + if user[|user| - 1].Message? then 1 else 0
  }

  class Mailbox<M> {
    const userCapacity: Option<nat>
    var system: seq<SystemMessage>
    var user: seq<Envelope<M>>
    var closed: bool
    var wired: bool

    ghost function View(): Box<M>
      reads this
    {
      Box(system, user, closed, wired)
    }

    constructor (userCapacity: Option<nat>)
      ensures View() == New() && this.userCapacity == userCapacity
    {
      this.userCapacity := userCapacity;
      system, user, closed, wired := [], [], false, false;
    }

    method SetScheduler()
      modifies this`wired
      ensures View() == old(View()).(wired := true)
    {
      wired := true;
    }

    /** Adds one user envelope; `schedule` tells the caller to schedule the actor. */
    method EnqueueUser(envelope: Envelope<M>) returns (result: Result<bool, Refusal>)
      modifies this`user
      ensures match UserAdded(old(View()), userCapacity, envelope)
        case Err(refusal) => result == Err(refusal) && View() == old(View())
        case Ok(after) => result == Ok(Schedules(old(View()))) && View() == after
    {
      if closed {
        return Err(WasClosed);
      }
      if userCapacity.Some? && |user| >= userCapacity.value {
        return Err(WasFull);
      }
      result := Ok(|system| == 0 && |user| == 0 && wired);
      user := user + [envelope];
    }

    method PrependUserMessages(messages: seq<M>) returns (result: Result<bool, Refusal>)
      modifies this`user
      ensures match Prepended(old(View()), messages)
        case Err(refusal) => result == Err(refusal) && View() == old(View())
        case Ok(after) => result == Ok(messages != [] && Schedules(old(View()))) && View() == after
    {
      if closed {
        return Err(WasClosed);
      }
      result := Ok(|messages| > 0 && |system| == 0 && |user| == 0 && wired);
      var i := |messages|;
      assert Wrapped(messages[|messages|..]) + user == user;
      while i > 0
        invariant 0 <= i <= |messages|
        invariant user == Wrapped(messages[i..]) + old(user)
      {
        i := i - 1;
        assert Wrapped(messages[i..]) == [Message(messages[i])] + Wrapped(messages[i + 1..]);
        user := [Message(messages[i])] + user;
      }
      assert messages[0..] == messages;
    }

    method EnqueueSystem(message: SystemMessage) returns (schedule: bool)
      modifies this`system
      ensures View() == SystemAdded(old(View()), message)
      ensures schedule <==> !closed && Schedules(old(View()))
    {
      if closed {
        return false;
      }
      schedule := |system| == 0 && |user| == 0 && wired;
      system := system + [message];
    }

    method TryDequeue() returns (next: Option<Dequeued<M>>)
      modifies this`system, this`user
      ensures (View(), next) == Taken(old(View()))
    {
      if |system| > 0 {
        next := Some(System(system[0]));
        system := system[1..];
      } else if |user| > 0 {
        next := Some(User(user[0]));
        user := user[1..];
      } else if closed {
        next := Some(Closed);
      } else {
        next := None;
      }
    }

    method CloseAndDrainUser() returns (drained: nat)
      modifies this`system, this`user, this`closed
      ensures View() == ClosedBox(old(View())) && drained == Messages(old(user))
    {
      closed := true;
      system := [];
      drained := 0;
      for i := 0 to |user|
        invariant user == old(user) && drained == Messages(user[..i])
      {
        assert user[..i + 1][..i] == user[..i];
        if user[i].Message? {
          drained := drained + 1;
        }
      }
      assert user[..|user|] == user;
      user := [];
    }
  }

  // ----- Order and capacity over whole histories -----

  datatype Op<M> = AddUser(envelope: Envelope<M>) | AddSystem(m: SystemMessage) | Take | Close | Wire

  function Applied<M>(b: Box<M>, capacity: Option<nat>, op: Op<M>): Box<M> {
    match op
    case AddUser(e) => (match UserAdded(b, capacity, e) case Ok(after) => after case Err(_) => b)
    case AddSystem(m) => SystemAdded(b, m)
    case Take => Taken(b).0
    case Close => ClosedBox(b)
    case Wire => b.(wired := true)
  }

  function Run<M>(capacity: Option<nat>, ops: seq<Op<M>>): Box<M> {
    if ops == [] then New() else Applied(Run(capacity, ops[..|ops| - 1]), capacity, ops[|ops| - 1])
  }

  /** The user envelopes accepted, in order. */
  function Accepted<M>(capacity: Option<nat>, ops: seq<Op<M>>): seq<Envelope<M>> {
    if ops == [] then []
    else
      var before, op := ops[..|ops| - 1], ops[|ops| - 1];
      Accepted(capacity, before) +
      if op.AddUser? && UserAdded(Run(capacity, before), capacity, op.envelope).Ok? then [op.envelope] else []
  }

  /** The user envelopes that left: taken out, or drained on closing. */
  function Left<M>(capacity: Option<nat>, ops: seq<Op<M>>): seq<Envelope<M>> {
    if ops == [] then []
    else
      var before, op := ops[..|ops| - 1], ops[|ops| - 1];
      var b := Run(capacity, before);
      Left(capacity, before) +
      if op.Take? && Taken(b).1.Some? && Taken(b).1.value.User? then [Taken(b).1.value.envelope]
      else if op.Close? then b.user else []
  }

  /** Over every history the accepted user messages are those that left followed by those still waiting;
      the lane never exceeds its capacity, and a closed mailbox stays closed and empty. */
  lemma {:induction false} LaneInOrder<M>(capacity: Option<nat>, ops: seq<Op<M>>)
    ensures var b := Run(capacity, ops);
      && Accepted(capacity, ops) == Left(capacity, ops) + b.user
      && (capacity.Some? ==> |b.user| <= capacity.value)
      && (b.closed ==> Idle(b))
      && (ops != [] && Run(capacity, ops[..|ops| - 1]).closed ==> b.closed)
  {
    hide Applied, UserAdded, Taken, Idle;
    if ops == [] {
      assert Idle(New<M>()) by { NewIdle<M>(); }
    } else {
      var before, op := ops[..|ops| - 1], ops[|ops| - 1];
      LaneInOrder(capacity, before);
      LaneStep(capacity, Run(capacity, before), op, Left(capacity, before));
    }
  }

  lemma NewIdle<M>()
    ensures Idle(New<M>())
  {
  }

  lemma LaneStep<M>(capacity: Option<nat>, b: Box<M>, op: Op<M>, left: seq<Envelope<M>>)
    ensures var more := if op.AddUser? && UserAdded(b, capacity, op.envelope).Ok? then [op.envelope] else [];
      var out := if op.Take? && Taken(b).1.Some? && Taken(b).1.value.User? then [Taken(b).1.value.envelope]
                 else if op.Close? then b.user else [];
      left + b.user + more == left + out + Applied(b, capacity, op).user
    ensures var after := Applied(b, capacity, op);
      && (capacity.Some? && |b.user| <= capacity.value ==> |after.user| <= capacity.value)
      && ((b.closed ==> Idle(b)) ==> (after.closed ==> Idle(after))) && (b.closed ==> after.closed)
  {
    match op {
      case AddUser(e) => assert left + b.user + [e] == left + [] + (b.user + [e]);
      case Take =>
        if b.system == [] && b.user != [] {
          assert left + b.user + [] == left + [b.user[0]] + b.user[1..];
        }
      case Close => assert left + b.user + [] == left + b.user + [];
      case _ =>
    }
  }

  /** The system messages accepted, in order. */
  function AcceptedSystem<M>(capacity: Option<nat>, ops: seq<Op<M>>): seq<SystemMessage> {
    if ops == [] then []
    else
      var before, op := ops[..|ops| - 1], ops[|ops| - 1];
      AcceptedSystem(capacity, before) + if op.AddSystem? && !Run(capacity, before).closed then [op.m] else []
  }

  /** The system messages that left: taken out, or dropped on closing. */
  function LeftSystem<M>(capacity: Option<nat>, ops: seq<Op<M>>): seq<SystemMessage> {
    if ops == [] then []
    else
      var before, op := ops[..|ops| - 1], ops[|ops| - 1];
      var b := Run(capacity, before);
      LeftSystem(capacity, before) +
      if op.Take? && Taken(b).1.Some? && Taken(b).1.value.System? then [Taken(b).1.value.signal]
      else if op.Close? then b.system else []
  }

  /** Over every history the accepted system messages are those that left followed by those waiting; and a user
      message is taken out only when no system message waits. */
  lemma {:induction false} SystemLaneFirst<M>(capacity: Option<nat>, ops: seq<Op<M>>)
    ensures var b := Run(capacity, ops);
      && AcceptedSystem(capacity, ops) == LeftSystem(capacity, ops) + b.system
      && (Taken(b).1.Some? && Taken(b).1.value.User? ==> b.system == [])
      && (Taken(b).1.None? <==> Idle(b) && !b.closed)
  {
    hide Applied;
    if ops != [] {
      var before, op := ops[..|ops| - 1], ops[|ops| - 1];
      SystemLaneFirst(capacity, before);
      SystemStep(capacity, Run(capacity, before), op, LeftSystem(capacity, before));
    }
  }

  lemma SystemStep<M>(capacity: Option<nat>, b: Box<M>, op: Op<M>, left: seq<SystemMessage>)
    ensures var more := if op.AddSystem? && !b.closed then [op.m] else [];
      var out := if op.Take? && Taken(b).1.Some? && Taken(b).1.value.System? then [Taken(b).1.value.signal]
                 else if op.Close? then b.system else [];
      left + b.system + more == left + out + Applied(b, capacity, op).system
  {
    match op {
      case AddSystem(m) => assert left + b.system + [m] == left + [] + (b.system + [m]);
      case Take =>
        if b.system != [] {
          assert left + b.system + [] == left + [b.system[0]] + b.system[1..];
        }
      case Close => assert left + b.system + [] == left + b.system + [];
      case _ =>
    }
  }

  /** A user message is refused exactly by a closed mailbox, and otherwise exactly by a full one; a system message
      exactly by a closed one. */
  lemma RefusedExactly<M>(b: Box<M>, capacity: Option<nat>, e: Envelope<M>, m: SystemMessage)
    ensures UserAdded(b, capacity, e) == Err(WasClosed) <==> b.closed
    ensures UserAdded(b, capacity, e) == Err(WasFull) <==> !b.closed && capacity.Some? && capacity.value <= |b.user|
    ensures SystemAdded(b, m) == b <==> b.closed
  {
    assert !b.closed ==> |SystemAdded(b, m).system| == |b.system| + 1;
  }

  function TakenTimes<M>(b: Box<M>, n: nat): Box<M> {
    if n == 0 then b else Taken(TakenTimes(b, n - 1)).0
  }

  /** Prepended messages come out first, in their order, and leave the mailbox as it was. */
  lemma {:induction false} PrependedFirst<M>(b: Box<M>, messages: seq<M>, k: nat)
    requires !b.closed && b.system == [] && k <= |messages|
    ensures var after := Prepended(b, messages);
      && after.Ok?
      && TakenTimes(after.value, k) == b.(user := Wrapped(messages[k..]) + b.user)
      && (k < |messages| ==> Taken(TakenTimes(after.value, k)).1 == Some(User(Message(messages[k]))))
      && (k == |messages| ==> TakenTimes(after.value, k) == b)
  {
    var after := Prepended(b, messages);
    if k == 0 {
      assert messages[0..] == messages;
    } else {
      PrependedFirst(b, messages, k - 1);
      assert Wrapped(messages[k - 1..]) + b.user == [Message(messages[k - 1])] + (Wrapped(messages[k..]) + b.user);
    }
    assert Wrapped(messages[|messages|..]) + b.user == b.user;
  }
}
