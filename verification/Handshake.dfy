/**
 The follow handshake between two nodes in `mutual` mode (sections 7.5, 7.6 and 7.7 of
 the W3C ActivityPub Recommendation). Each node has issued AddFollow to the other.
 Handlers run concurrently, one database statement at a time; messages arrive in any
 order and may be delivered more than once, but are not lost.
 */
module Handshake {
  import opened Base
  import opened Actors

  datatype Side = A | B

  function Other(x: Side): Side {
    if x == A then B else A
  }

  /** How far AddFollow has come: store the outgoing follow, send Follow, upsert the peer. */
  datatype Service = NotStarted | FollowStoredOut | FollowSent | Finished

  datatype Node = Node(row: Option<Row>, request: bool, service: Service)

  datatype Kind = Follow | Accept

  datatype Msg = Msg(to: Side, kind: Kind)

  /** The program points of processFollow and processAccept, named by the statement just completed. */
  datatype Stage =
    | FollowArrived
    | RequestStored   // AddFollowRequest done, shouldAutoAccept next
    | Accepting       // AcceptFollowRequest called
    | Promoting       // it found the request, its transaction is next
    | WillSendAccept  // promoted, SendAccept next
    | AcceptArrived
    | SawPending      // GetOutgoingFollow returned a pending follow
    | Recorded        // AcceptOutgoingFollow done, GetFollowRequest next

  datatype Handler = Handler(at: Side, stage: Stage)

  datatype State = State(a: Node, b: Node, wire: multiset<Msg>, seen: set<Msg>, handlers: multiset<Handler>)

  function Get(s: State, x: Side): Node {
    if x == A then s.a else s.b
  }

  function Set(s: State, x: Side, n: Node): State {
    if x == A then s.(a := n) else s.(b := n)
  }

  function Initial(): State {
    var n := Node(None, false, NotStarted);
    State(n, n, multiset{}, {}, multiset{})
  }

  // ---- steps ---------------------------------------------------------------

  datatype Effect = Effect(node: Node, next: Option<Stage>, send: bool)

  /** One statement of a handler at a `mutual` node. */
  function Handle(n: Node, stage: Stage, now: Time): Effect {
    match stage
    case FollowArrived => Effect(n.(request := true), Some(RequestStored), false)
    case RequestStored =>
      Effect(n, if HasPending(n.row) || HasAccepted(n.row) then Some(Accepting) else None, false)
    case Accepting => Effect(n, if n.request then Some(Promoting) else None, false)
    case Promoting => Effect(n.(row := Some(Promoted(n.row, now)), request := false), Some(WillSendAccept), false)
    case WillSendAccept => Effect(n, None, true)
    case AcceptArrived => Effect(n, if HasPending(n.row) then Some(SawPending) else None, false)
    case SawPending =>
      var row := if HasPending(n.row) then Some(AcceptedRow(n.row.value, now)) else n.row;
      Effect(n.(row := row), Some(Recorded), false)
    case Recorded => Effect(n, if n.request then Some(Accepting) else None, false)
  }

  datatype Step =
    | Serve(x: Side, now: Time)            // AddFollow at x moves on
    | Deliver(m: Msg, again: bool)         // a POST; `again` when the sender will retry it
    | Duplicate(m: Msg)                    // a POST dropped because its activity id was seen
    | Run(h: Handler, now: Time)

  ghost predicate Next(s: State, step: Step, s': State) {
    match step
    case Serve(x, now) =>
      var n := Get(s, x);
      (match n.service
       case NotStarted => s' == Set(s, x, n.(row := Some(Requested(n.row, now)), service := FollowStoredOut))
       case FollowStoredOut =>
         s' == Set(s, x, n.(service := FollowSent)).(wire := s.wire + multiset{Msg(Other(x), Follow)})
       case FollowSent => s' == Set(s, x, n.(row := Some(Merged(n.row, Fresh(now))), service := Finished))
       case Finished => false)
    case Deliver(m, again) =>
      && m in s.wire
      && s' == s.(wire := if again then s.wire else s.wire - multiset{m},
                  seen := s.seen + {m},
                  handlers := s.handlers + multiset{Handler(m.to, if m.kind == Follow then FollowArrived else AcceptArrived)})
    case Duplicate(m) => m in s.wire && m in s.seen && s' == s.(wire := s.wire - multiset{m})
    case Run(h, now) =>
      && h in s.handlers
      && var e := Handle(Get(s, h.at), h.stage, now);
         s' == Set(s, h.at, e.node).(
           handlers := s.handlers - multiset{h} + (if e.next.Some? then multiset{Handler(h.at, e.next.value)} else multiset{}),
           wire := if e.send then s.wire + multiset{Msg(Other(h.at), Accept)} else s.wire)
  }

  // ---- the invariant -------------------------------------------------------

  ghost predicate At(s: State, x: Side, stage: Stage) {
    Handler(x, stage) in s.handlers
  }

  /** Some handler at x is on its way to promote a stored request. */
  ghost predicate WillPromote(s: State, x: Side) {
    At(s, x, RequestStored) || At(s, x, Accepting) || At(s, x, Promoting) || At(s, x, Recorded)
  }

  ghost predicate Sent(s: State, x: Side) {
    Get(s, x).service == FollowSent || Get(s, x).service == Finished
  }

  /** The other side's Follow has left a trace at x. */
  ghost predicate Heard(s: State, x: Side) {
    || Msg(x, Follow) in s.wire || Msg(x, Follow) in s.seen
    || At(s, x, FollowArrived) || At(s, x, RequestStored) || At(s, x, Accepting) || At(s, x, Promoting)
    || At(s, x, WillSendAccept)
    || Get(s, x).request || Follower(Get(s, x).row)
  }

  /** An Accept for x's own follow has left a trace. */
  ghost predicate Answered(s: State, x: Side) {
    || Msg(x, Accept) in s.wire || Msg(x, Accept) in s.seen
    || At(s, x, AcceptArrived) || At(s, x, SawPending) || At(s, x, Recorded)
  }

  /** The request was stored and its handler found no outgoing follow. */
  ghost predicate Stuck(s: State, x: Side) {
    Get(s, x).request && !WillPromote(s, x)
  }

  /** The node's own follow is not started, or pending, or accepted. */
  ghost predicate NodeOk(n: Node) {
    && (n.row.Some? ==> Consistent(n.row.value))
    && if n.service == NotStarted then !HasPending(n.row) && !HasAccepted(n.row)
       else HasPending(n.row) || HasAccepted(n.row)
  }

  ghost predicate OutgoingOk(s: State, x: Side) {
    NodeOk(Get(s, x))
  }

  ghost predicate HeardCause(s: State, x: Side) {
    Heard(s, x) ==> Sent(s, Other(x))
  }

  ghost predicate AnsweredCause(s: State, x: Side) {
    Answered(s, x) ==> Sent(s, x)
  }

  /** A sent Follow is on the wire, or at the other side in some form. */
  ghost predicate FollowNotLost(s: State, x: Side) {
    var y := Other(x);
    && (Sent(s, x) ==>
          Msg(y, Follow) in s.wire || At(s, y, FollowArrived) || Get(s, y).request || Follower(Get(s, y).row))
    && (Msg(y, Follow) in s.seen ==> At(s, y, FollowArrived) || Get(s, y).request || Follower(Get(s, y).row))
  }

  /** Being recorded as a follower means the Accept is on its way or has been recorded. */
  ghost predicate AcceptNotLost(s: State, x: Side) {
    var y := Other(x);
    var arriving := At(s, x, AcceptArrived) || At(s, x, SawPending) || HasAccepted(Get(s, x).row);
    && (Follower(Get(s, y).row) ==> Msg(x, Accept) in s.wire || At(s, y, WillSendAccept) || arriving)
    && (Msg(x, Accept) in s.seen ==> arriving)
  }

  ghost predicate RequestNotForgotten(s: State, x: Side) {
    Get(s, x).request && HasAccepted(Get(s, x).row) ==> WillPromote(s, x)
  }

  ghost predicate InvAt(s: State, x: Side) {
    && OutgoingOk(s, x) && HeardCause(s, x) && AnsweredCause(s, x)
    && FollowNotLost(s, x) && AcceptNotLost(s, x) && RequestNotForgotten(s, x)
    && !(Stuck(s, x) && Stuck(s, Other(x)))
  }

  ghost predicate Inv(s: State) {
    InvAt(s, A) && InvAt(s, B)
  }

  /** What a step may do to the handlers and the wire, without counting copies. */
  ghost predicate Moves(s: State, s': State, done: Option<Handler>, fresh': Option<Handler>, sent: Option<Msg>) {
    && (forall g :: g in s.handlers && done != Some(g) ==> g in s'.handlers)
    && (forall g :: g in s'.handlers ==> g in s.handlers || fresh' == Some(g))
    && (fresh'.Some? ==> fresh'.value in s'.handlers)
    && (forall m :: m in s.wire ==> m in s'.wire)
    && (forall m :: m in s'.wire ==> m in s.wire || sent == Some(m))
    && (sent.Some? ==> sent.value in s'.wire)
  }

  /** One statement of AddFollow, seen through Moves. */
  ghost predicate Served(s: State, x: Side, now: Time, s': State) {
    var n, n' := Get(s, x), Get(s', x);
    && Get(s', Other(x)) == Get(s, Other(x)) && s'.seen == s.seen && n'.request == n.request
    && Moves(s, s', None, None, if n.service == FollowStoredOut then Some(Msg(Other(x), Follow)) else None)
    && (n.service == NotStarted ==> n'.row == Some(Requested(n.row, now)) && n'.service == FollowStoredOut)
    && (n.service == FollowStoredOut ==> n'.row == n.row && n'.service == FollowSent)
    && (n.service == FollowSent ==> n'.row == Some(Merged(n.row, Fresh(now))) && n'.service == Finished)
    && n.service != Finished
  }

  lemma ServeMoves(s: State, x: Side, now: Time, s': State)
    requires Next(s, Serve(x, now), s')
    ensures Served(s, x, now, s')
  {
  }

  lemma ServeKeepsLocal(s: State, x: Side, now: Time, s': State, z: Side)
    requires Served(s, x, now, s') && OutgoingOk(s, z) && RequestNotForgotten(s, z)
    ensures OutgoingOk(s', z) && RequestNotForgotten(s', z)
  {
  }

  lemma ServeKeepsCauses(s: State, x: Side, now: Time, s': State, z: Side)
    requires Served(s, x, now, s') && HeardCause(s, z) && AnsweredCause(s, z)
    ensures HeardCause(s', z) && AnsweredCause(s', z)
  {
  }

  lemma ServeKeepsFollowNotLost(s: State, x: Side, now: Time, s': State, z: Side)
    requires Served(s, x, now, s') && FollowNotLost(s, z) && OutgoingOk(s, Other(z))
    ensures FollowNotLost(s', z)
  {
  }

  lemma ServeKeepsAcceptNotLost(s: State, x: Side, now: Time, s': State, z: Side)
    requires Served(s, x, now, s') && AcceptNotLost(s, z) && OutgoingOk(s, z) && OutgoingOk(s, Other(z))
    ensures AcceptNotLost(s', z)
  {
  }

  lemma ServeKeepsInv(s: State, x: Side, now: Time, s': State, z: Side)
    requires Inv(s) && Served(s, x, now, s')
    ensures InvAt(s', z)
  {
    assert InvAt(s, z) && InvAt(s, Other(z));
    ServeKeepsLocal(s, x, now, s', z);
    ServeKeepsCauses(s, x, now, s', z);
    ServeKeepsFollowNotLost(s, x, now, s', z);
    ServeKeepsAcceptNotLost(s, x, now, s', z);
  }

  /** A message becomes a handler; whether it stays on the wire does not matter. */
  ghost predicate Arrived(s: State, m: Msg, s': State) {
    && m in s.wire && s'.a == s.a && s'.b == s.b && s'.seen == s.seen + {m}
    && (forall g :: g in s'.handlers <==>
          g in s.handlers || g == Handler(m.to, if m.kind == Follow then FollowArrived else AcceptArrived))
    && (forall k :: k in s'.wire ==> k in s.wire)
    && (forall k :: k in s.wire && k != m ==> k in s'.wire)
  }

  lemma DeliverArrives(s: State, m: Msg, again: bool, s': State)
    requires Next(s, Deliver(m, again), s')
    ensures Arrived(s, m, s')
  {
  }

  lemma ArrivalKeepsNotLost(s: State, m: Msg, s': State, z: Side)
    requires Arrived(s, m, s') && FollowNotLost(s, z) && AcceptNotLost(s, z)
    ensures FollowNotLost(s', z) && AcceptNotLost(s', z)
  {
  }

  lemma ArrivalKeepsRest(s: State, m: Msg, s': State, z: Side)
    requires Arrived(s, m, s') && OutgoingOk(s, z) && HeardCause(s, z) && AnsweredCause(s, z) && RequestNotForgotten(s, z)
    requires !(Stuck(s, z) && Stuck(s, Other(z)))
    ensures OutgoingOk(s', z) && HeardCause(s', z) && AnsweredCause(s', z) && RequestNotForgotten(s', z)
    ensures !(Stuck(s', z) && Stuck(s', Other(z)))
  {
  }

  lemma ArrivalKeepsInv(s: State, m: Msg, s': State, z: Side)
    requires Inv(s) && Arrived(s, m, s')
    ensures InvAt(s', z)
  {
    assert InvAt(s, z);
    ArrivalKeepsNotLost(s, m, s', z);
    ArrivalKeepsRest(s, m, s', z);
  }

  ghost predicate Dropped(s: State, m: Msg, s': State) {
    && m in s.seen && s'.a == s.a && s'.b == s.b && s'.seen == s.seen && s'.handlers == s.handlers
    && (forall k :: k in s'.wire ==> k in s.wire)
    && (forall k :: k in s.wire && k != m ==> k in s'.wire)
  }

  lemma DuplicateDrops(s: State, m: Msg, s': State)
    requires Next(s, Duplicate(m), s')
    ensures Dropped(s, m, s')
  {
  }

  lemma DuplicateKeepsInv(s: State, m: Msg, s': State, z: Side)
    requires Inv(s) && Dropped(s, m, s')
    ensures InvAt(s', z)
  {
    assert InvAt(s, z) && InvAt(s, Other(z));
  }

  /** One handler statement, seen through Moves. */
  ghost predicate Ran(s: State, h: Handler, now: Time, s': State) {
    var e := Handle(Get(s, h.at), h.stage, now);
    && h in s.handlers
    && Get(s', h.at) == e.node && Get(s', Other(h.at)) == Get(s, Other(h.at)) && s'.seen == s.seen
    && Moves(s, s', Some(h), if e.next.Some? then Some(Handler(h.at, e.next.value)) else None,
             if e.send then Some(Msg(Other(h.at), Accept)) else None)
  }

  lemma HandleKeepsNode(n: Node, stage: Stage, now: Time)
    ensures NodeOk(n) ==> NodeOk(Handle(n, stage, now).node)
  {
  }

  lemma RunKeepsOutgoingOk(s: State, h: Handler, now: Time, s': State, z: Side)
    requires Ran(s, h, now, s') && OutgoingOk(s, z)
    ensures OutgoingOk(s', z)
  {
    HandleKeepsNode(Get(s, h.at), h.stage, now);
  }

  lemma RunKeepsHeardCause(s: State, h: Handler, now: Time, s': State, z: Side)
    requires Ran(s, h, now, s') && HeardCause(s, z)
    ensures HeardCause(s', z)
  {
  }

  lemma RunKeepsAnsweredCause(s: State, h: Handler, now: Time, s': State, z: Side)
    requires Ran(s, h, now, s') && AnsweredCause(s, z) && HeardCause(s, Other(z))
    ensures AnsweredCause(s', z)
  {
  }

  lemma RunKeepsFollowNotLost(s: State, h: Handler, now: Time, s': State, z: Side)
    requires Ran(s, h, now, s') && FollowNotLost(s, z)
    ensures FollowNotLost(s', z)
  {
  }

  lemma RunKeepsAcceptNotLost(s: State, h: Handler, now: Time, s': State, z: Side)
    requires Ran(s, h, now, s') && AcceptNotLost(s, z) && AnsweredCause(s, z) && OutgoingOk(s, z)
    ensures AcceptNotLost(s', z)
  {
  }

  lemma RunKeepsRequestNotForgotten(s: State, h: Handler, now: Time, s': State, z: Side)
    requires Ran(s, h, now, s') && RequestNotForgotten(s, z)
    ensures RequestNotForgotten(s', z)
  {
  }

  lemma RunKeepsOneStuck(s: State, h: Handler, now: Time, s': State)
    requires Ran(s, h, now, s') && OutgoingOk(s, h.at) && HeardCause(s, Other(h.at))
    requires !(Stuck(s, h.at) && Stuck(s, Other(h.at)))
    ensures !(Stuck(s', h.at) && Stuck(s', Other(h.at)))
  {
  }

  lemma RunMoves(s: State, h: Handler, now: Time, s': State)
    requires Next(s, Run(h, now), s')
    ensures Ran(s, h, now, s')
  {
  }

  lemma HandlerKeepsInv(s: State, h: Handler, now: Time, s': State, z: Side)
    requires Inv(s) && Next(s, Run(h, now), s')
    ensures InvAt(s', z)
  {
    RunMoves(s, h, now, s');
    assert InvAt(s, z) && InvAt(s, Other(z));
    RunKeepsOutgoingOk(s, h, now, s', z);
    RunKeepsHeardCause(s, h, now, s', z);
    RunKeepsAnsweredCause(s, h, now, s', z);
    RunKeepsFollowNotLost(s, h, now, s', z);
    RunKeepsAcceptNotLost(s, h, now, s', z);
    RunKeepsRequestNotForgotten(s, h, now, s', z);
    RunKeepsOneStuck(s, h, now, s');
  }

  lemma StepKeepsInvAt(s: State, step: Step, s': State, z: Side)
    requires Inv(s) && Next(s, step, s')
    ensures InvAt(s', z)
  {
    match step
    case Serve(x, now) =>
      ServeMoves(s, x, now, s');
      ServeKeepsInv(s, x, now, s', z);
    case Deliver(m, again) =>
      DeliverArrives(s, m, again, s');
      ArrivalKeepsInv(s, m, s', z);
    case Duplicate(m) =>
      DuplicateDrops(s, m, s');
      DuplicateKeepsInv(s, m, s', z);
    case Run(h, now) =>
      HandlerKeepsInv(s, h, now, s', z);
  }

  lemma StepKeepsInv(s: State, step: Step, s': State)
    requires Inv(s) && Next(s, step, s')
    ensures Inv(s')
  {
    StepKeepsInvAt(s, step, s', A);
    StepKeepsInvAt(s, step, s', B);
  }

  // ---- the theorem ---------------------------------------------------------

  ghost predicate Behaviour(ss: seq<State>, steps: seq<Step>) {
    && |ss| == |steps| + 1 && ss[0] == Initial()
    && forall i :: 0 <= i < |steps| ==> Next(ss[i], steps[i], ss[i + 1])
  }

  lemma {:induction false} AlwaysInv(ss: seq<State>, steps: seq<Step>, n: nat)
    requires Behaviour(ss, steps) && n < |ss|
    ensures Inv(ss[n])
  {
    if n == 0 {
    } else {
      AlwaysInv(ss, steps, n - 1);
      StepKeepsInv(ss[n - 1], steps[n - 1], ss[n]);
    }
  }

  /** Both AddFollow calls have returned, and no message or handler is left. */
  ghost predicate Quiescent(s: State) {
    s.a.service == Finished && s.b.service == Finished && s.wire == multiset{} && s.handlers == multiset{}
  }

  /** x follows the other, knows it is accepted, counts the other as follower, and has nothing left to approve. */
  predicate Mutual(n: Node) {
    HasAccepted(n.row) && Follower(n.row) && !n.request
  }

  /**
   Whatever the order of deliveries and of handler steps, every quiescent state has both
   follows accepted and both nodes recorded as followers.
   */
  lemma HandshakeCompletes(ss: seq<State>, steps: seq<Step>, n: nat)
    requires Behaviour(ss, steps) && n < |ss| && Quiescent(ss[n])
    ensures Mutual(ss[n].a) && Mutual(ss[n].b)
  {
    AlwaysInv(ss, steps, n);
    assert InvAt(ss[n], A) && InvAt(ss[n], B);
  }

  /** A state in which nothing can happen any more is a quiescent one, so no run gets stuck halfway. */
  lemma OnlyQuiescentStatesRest(s: State)
    requires !Quiescent(s)
    ensures exists step, s' :: Next(s, step, s')
  {
    if x: Side :| Get(s, x).service != Finished {
      var n := Get(s, x);
      var s' :=
        match n.service
        case NotStarted => Set(s, x, n.(row := Some(Requested(n.row, 0)), service := FollowStoredOut))
        case FollowStoredOut => Set(s, x, n.(service := FollowSent)).(wire := s.wire + multiset{Msg(Other(x), Follow)})
        case _ => Set(s, x, n.(row := Some(Merged(n.row, Fresh(0))), service := Finished));
      assert Next(s, Serve(x, 0), s');
    } else if m :| m in s.wire {
      var h := Handler(m.to, if m.kind == Follow then FollowArrived else AcceptArrived);
      assert Next(s, Deliver(m, false), s.(wire := s.wire - multiset{m}, seen := s.seen + {m}, handlers := s.handlers + multiset{h}));
    } else {
      assert s.wire == multiset{};
      assert Get(s, A).service == Finished && Get(s, B).service == Finished;
      var h :| h in s.handlers;
      var e := Handle(Get(s, h.at), h.stage, 0);
      var s' := Set(s, h.at, e.node).(
        handlers := s.handlers - multiset{h} + (if e.next.Some? then multiset{Handler(h.at, e.next.value)} else multiset{}),
        wire := if e.send then s.wire + multiset{Msg(Other(h.at), Accept)} else s.wire);
      assert Next(s, Run(h, 0), s');
    }
  }
}
