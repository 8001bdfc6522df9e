/**
 The handshake comes to rest. Every message and every handler has a price that covers what can
 still follow from it; an Accept is dear only while its receiver's follow is not accepted, and
 an accepted follow stays so. Each step spends at least one, so a run is bounded by the repeated
 deliveries in it.
 */
module Settling {
  import opened Base
  import opened Actors
  import opened Handshake

  // ---- prices --------------------------------------------------------------

  predicate Unaccepted(n: Node) {
    !HasAccepted(n.row)
  }

  /** An Accept to a node, by whether its own follow and the other's are still unaccepted. */
  function AcceptPrice(mine: bool, theirs: bool): nat {
    if !mine then 2 else if theirs then 16 else 9
  }

  /** At one node: an Accept to it, an Accept to the other, and the latter once its own follow is accepted. */
  datatype Prices = Prices(mine: nat, theirs: nat, later: nat)

  function PricesAt(s: State, x: Side): Prices {
    var a, b := Unaccepted(Get(s, x)), Unaccepted(Get(s, Other(x)));
    Prices(AcceptPrice(a, b), AcceptPrice(b, a), AcceptPrice(b, false))
  }

  function StagePrice(stage: Stage, p: Prices): nat {
    match stage
    case FollowArrived => 5 + p.theirs
    case RequestStored => 4 + p.theirs
    case Accepting => 3 + p.theirs
    case Promoting => 2 + p.theirs
    case WillSendAccept => 1 + p.theirs
    case AcceptArrived => if p.mine == 0 then 0 else p.mine - 1
    case SawPending => 5 + p.later
    case Recorded => 4 + p.later
  }

  function KindPrice(kind: Kind, p: Prices): nat {
    if kind == Follow then 6 + p.theirs else p.mine
  }

  function ServicePrice(v: Service): nat {
    match v
    case NotStarted => 25
    case FollowStoredOut => 24
    case FollowSent => 1
    case Finished => 0
  }

  function Times(count: nat, price: nat): nat {
    count * price
  }

  function HandlerLoad(hs: multiset<Handler>, x: Side, p: Prices): nat {
    Times(hs[Handler(x, FollowArrived)], StagePrice(FollowArrived, p))
    + Times(hs[Handler(x, RequestStored)], StagePrice(RequestStored, p))
    + Times(hs[Handler(x, Accepting)], StagePrice(Accepting, p))
    + Times(hs[Handler(x, Promoting)], StagePrice(Promoting, p))
    + Times(hs[Handler(x, WillSendAccept)], StagePrice(WillSendAccept, p))
    + Times(hs[Handler(x, AcceptArrived)], StagePrice(AcceptArrived, p))
    + Times(hs[Handler(x, SawPending)], StagePrice(SawPending, p))
    + Times(hs[Handler(x, Recorded)], StagePrice(Recorded, p))
  }

  function WireLoad(ws: multiset<Msg>, x: Side, p: Prices): nat {
    Times(ws[Msg(x, Follow)], KindPrice(Follow, p)) + Times(ws[Msg(x, Accept)], KindPrice(Accept, p))
  }

  /** What can still happen at node x. */
  function Load(s: State, x: Side): nat {
    HandlerLoad(s.handlers, x, PricesAt(s, x)) + WireLoad(s.wire, x, PricesAt(s, x)) + ServicePrice(Get(s, x).service)
  }

  function Total(s: State): nat {
    Load(s, A) + Load(s, B)
  }

  // ---- arithmetic of loads -------------------------------------------------

  lemma OneMore(c: nat, w: nat)
    ensures Times(c + 1, w) == Times(c, w) + w
  {
  }

  lemma Monotone(c: nat, w: nat, w': nat)
    requires w' <= w
    ensures Times(c, w') <= Times(c, w)
  {
  }

  predicate Cheaper(p: Prices, p': Prices) {
    p'.mine <= p.mine && p'.theirs <= p.theirs && p'.later <= p.later
  }

  lemma AddHandler(hs: multiset<Handler>, h: Handler, x: Side, p: Prices)
    ensures HandlerLoad(hs + multiset{h}, x, p) == HandlerLoad(hs, x, p) + if h.at == x then StagePrice(h.stage, p) else 0
  {
    var all := hs + multiset{h};
    assert forall g :: all[g] == hs[g] + if g == h then 1 else 0;
    if h.at == x {
      OneMore(hs[h], StagePrice(h.stage, p));
    }
  }

  lemma AddMsg(ws: multiset<Msg>, m: Msg, x: Side, p: Prices)
    ensures WireLoad(ws + multiset{m}, x, p) == WireLoad(ws, x, p) + if m.to == x then KindPrice(m.kind, p) else 0
  {
    if m.to == x {
      OneMore(ws[m], KindPrice(m.kind, p));
    }
  }

  lemma CheaperHandlers(hs: multiset<Handler>, x: Side, p: Prices, p': Prices)
    requires Cheaper(p, p')
    ensures HandlerLoad(hs, x, p') <= HandlerLoad(hs, x, p)
  {
    Monotone(hs[Handler(x, FollowArrived)], StagePrice(FollowArrived, p), StagePrice(FollowArrived, p'));
    Monotone(hs[Handler(x, RequestStored)], StagePrice(RequestStored, p), StagePrice(RequestStored, p'));
    Monotone(hs[Handler(x, Accepting)], StagePrice(Accepting, p), StagePrice(Accepting, p'));
    Monotone(hs[Handler(x, Promoting)], StagePrice(Promoting, p), StagePrice(Promoting, p'));
    Monotone(hs[Handler(x, WillSendAccept)], StagePrice(WillSendAccept, p), StagePrice(WillSendAccept, p'));
    Monotone(hs[Handler(x, AcceptArrived)], StagePrice(AcceptArrived, p), StagePrice(AcceptArrived, p'));
    Monotone(hs[Handler(x, SawPending)], StagePrice(SawPending, p), StagePrice(SawPending, p'));
    Monotone(hs[Handler(x, Recorded)], StagePrice(Recorded, p), StagePrice(Recorded, p'));
  }

  lemma CheaperWire(ws: multiset<Msg>, x: Side, p: Prices, p': Prices)
    requires Cheaper(p, p')
    ensures WireLoad(ws, x, p') <= WireLoad(ws, x, p)
  {
    Monotone(ws[Msg(x, Follow)], KindPrice(Follow, p), KindPrice(Follow, p'));
    Monotone(ws[Msg(x, Accept)], KindPrice(Accept, p), KindPrice(Accept, p'));
  }

  // ---- steps ---------------------------------------------------------------

  /** A handler past SawPending has found or made its follow accepted. */
  ghost predicate RecordedOk(s: State, x: Side) {
    At(s, x, Recorded) ==> HasAccepted(Get(s, x).row)
  }

  ghost predicate Stays(s: State, s': State, x: Side) {
    HasAccepted(Get(s, x).row) ==> HasAccepted(Get(s', x).row)
  }

  lemma ServeStays(s: State, x: Side, now: Time, s': State, z: Side)
    requires Served(s, x, now, s')
    ensures Stays(s, s', z)
  {
  }

  lemma RunStays(s: State, h: Handler, now: Time, s': State, z: Side)
    requires Ran(s, h, now, s')
    ensures Stays(s, s', z)
  {
  }

  /** Accepted stays accepted. */
  lemma StepStays(s: State, step: Step, s': State, x: Side)
    requires Next(s, step, s')
    ensures Stays(s, s', x)
  {
    match step
    case Serve(y, now) =>
      ServeMoves(s, y, now, s');
      ServeStays(s, y, now, s', x);
    case Run(h, now) =>
      RunMoves(s, h, now, s');
      RunStays(s, h, now, s', x);
    case _ =>
  }

  lemma RunKeepsRecorded(s: State, h: Handler, now: Time, s': State, x: Side)
    requires Ran(s, h, now, s') && RecordedOk(s, x) && OutgoingOk(s, x) && AnsweredCause(s, x) && Stays(s, s', x)
    ensures RecordedOk(s', x)
  {
  }

  lemma StepKeepsRecorded(s: State, step: Step, s': State, x: Side)
    requires Next(s, step, s') && RecordedOk(s, x) && OutgoingOk(s, x) && AnsweredCause(s, x)
    ensures RecordedOk(s', x)
  {
    StepStays(s, step, s', x);
    if step.Run? {
      RunMoves(s, step.h, step.now, s');
      RunKeepsRecorded(s, step.h, step.now, s', x);
    } else {
      assert At(s', x, Recorded) ==> At(s, x, Recorded);
    }
  }

  lemma StaysCheaper(s: State, s': State, x: Side)
    requires Stays(s, s', A) && Stays(s, s', B)
    ensures Cheaper(PricesAt(s, x), PricesAt(s', x))
  {
  }

  /** One handler statement costs at least one more than what it leads to. */
  lemma HandlePays(s: State, h: Handler, now: Time, s': State)
    requires h in s.handlers && RecordedOk(s, h.at) && Get(s', Other(h.at)) == Get(s, Other(h.at))
    requires Get(s', h.at) == Handle(Get(s, h.at), h.stage, now).node
    ensures var e := Handle(Get(s, h.at), h.stage, now);
            StagePrice(h.stage, PricesAt(s, h.at)) >=
              1 + (if e.next.Some? then StagePrice(e.next.value, PricesAt(s', h.at)) else 0)
                + (if e.send then PricesAt(s', h.at).theirs else 0)
  {
  }

  /** With prices that have not gone up, handlers and messages that are only moved around cost no more. */
  lemma LoadsDrop(s: State, s': State, x: Side, hs: multiset<Handler>, ws: multiset<Msg>)
    requires Stays(s, s', A) && Stays(s, s', B)
    ensures HandlerLoad(hs, x, PricesAt(s', x)) <= HandlerLoad(hs, x, PricesAt(s, x))
    ensures WireLoad(ws, x, PricesAt(s', x)) <= WireLoad(ws, x, PricesAt(s, x))
  {
    StaysCheaper(s, s', x);
    CheaperHandlers(hs, x, PricesAt(s, x), PricesAt(s', x));
    CheaperWire(ws, x, PricesAt(s, x), PricesAt(s', x));
  }

  lemma AllStay(s: State, step: Step, s': State)
    requires Next(s, step, s')
    ensures Stays(s, s', A) && Stays(s, s', B)
  {
    StepStays(s, step, s', A);
    StepStays(s, step, s', B);
  }

  lemma TakeHandler(hs: multiset<Handler>, h: Handler, x: Side, p: Prices)
    requires h in hs
    ensures HandlerLoad(hs, x, p) == HandlerLoad(hs - multiset{h}, x, p) + if h.at == x then StagePrice(h.stage, p) else 0
  {
    assert hs - multiset{h} + multiset{h} == hs;
    AddHandler(hs - multiset{h}, h, x, p);
  }

  lemma TakeMsg(ws: multiset<Msg>, m: Msg, x: Side, p: Prices)
    requires m in ws
    ensures WireLoad(ws, x, p) == WireLoad(ws - multiset{m}, x, p) + if m.to == x then KindPrice(m.kind, p) else 0
  {
    assert ws - multiset{m} + multiset{m} == ws;
    AddMsg(ws - multiset{m}, m, x, p);
  }

  lemma RunHandlers(s: State, h: Handler, now: Time, s': State, x: Side)
    requires Next(s, Run(h, now), s')
    ensures var e := Handle(Get(s, h.at), h.stage, now);
            HandlerLoad(s'.handlers, x, PricesAt(s', x)) + (if h.at == x then StagePrice(h.stage, PricesAt(s, x)) else 0)
              <= HandlerLoad(s.handlers, x, PricesAt(s, x))
                 + (if e.next.Some? && h.at == x then StagePrice(e.next.value, PricesAt(s', x)) else 0)
  {
    var e := Handle(Get(s, h.at), h.stage, now);
    var rest := s.handlers - multiset{h};
    AllStay(s, Run(h, now), s');
    LoadsDrop(s, s', x, rest, s.wire);
    TakeHandler(s.handlers, h, x, PricesAt(s, x));
    if e.next.Some? {
      AddHandler(rest, Handler(h.at, e.next.value), x, PricesAt(s', x));
    } else {
      assert s'.handlers == rest;
    }
  }

  lemma RunWire(s: State, h: Handler, now: Time, s': State, x: Side)
    requires Next(s, Run(h, now), s')
    ensures var e := Handle(Get(s, h.at), h.stage, now);
            WireLoad(s'.wire, x, PricesAt(s', x))
              <= WireLoad(s.wire, x, PricesAt(s, x)) + if e.send && h.at != x then PricesAt(s', x).mine else 0
  {
    AllStay(s, Run(h, now), s');
    LoadsDrop(s, s', x, s.handlers, s.wire);
    if Handle(Get(s, h.at), h.stage, now).send {
      AddMsg(s.wire, Msg(Other(h.at), Accept), x, PricesAt(s', x));
    }
  }

  lemma SameService(s: State, h: Handler, now: Time, s': State, x: Side)
    requires Next(s, Run(h, now), s')
    ensures Get(s', x).service == Get(s, x).service
  {
  }

  lemma RunLoad(s: State, h: Handler, now: Time, s': State, x: Side)
    requires Next(s, Run(h, now), s')
    ensures var e := Handle(Get(s, h.at), h.stage, now);
            Load(s', x) + (if h.at == x then StagePrice(h.stage, PricesAt(s, x)) else 0)
              <= Load(s, x) + (if e.next.Some? && h.at == x then StagePrice(e.next.value, PricesAt(s', x)) else 0)
                            + (if e.send && h.at != x then PricesAt(s', x).mine else 0)
  {
    RunHandlers(s, h, now, s', x);
    RunWire(s, h, now, s', x);
    SameService(s, h, now, s', x);
  }

  lemma RunPays(s: State, h: Handler, now: Time, s': State)
    requires Next(s, Run(h, now), s') && RecordedOk(s, h.at)
    ensures Total(s') < Total(s)
  {
    RunLoad(s, h, now, s', h.at);
    RunLoad(s, h, now, s', Other(h.at));
    HandlePays(s, h, now, s');
    assert PricesAt(s', Other(h.at)).mine == PricesAt(s', h.at).theirs;
  }

  /** A delivery pays for its handler, unless the message is kept to be sent again. */
  lemma DeliverLoad(s: State, m: Msg, again: bool, s': State, x: Side)
    requires Next(s, Deliver(m, again), s')
    ensures Load(s', x) <= Load(s, x) + if m.to != x then 0 else if again then 21 else -1
  {
    var p := PricesAt(s, x);
    assert PricesAt(s', x) == p;
    AddHandler(s.handlers, Handler(m.to, if m.kind == Follow then FollowArrived else AcceptArrived), x, p);
    TakeMsg(s.wire, m, x, p);
  }

  lemma DeliverPays(s: State, m: Msg, again: bool, s': State)
    requires Next(s, Deliver(m, again), s')
    ensures Total(s') <= Total(s) + if again then 21 else -1
  {
    DeliverLoad(s, m, again, s', A);
    DeliverLoad(s, m, again, s', B);
  }

  lemma DuplicateLoad(s: State, m: Msg, s': State, x: Side)
    requires Next(s, Duplicate(m), s')
    ensures Load(s', x) <= Load(s, x) + if m.to != x then 0 else -1
  {
    assert PricesAt(s', x) == PricesAt(s, x);
    TakeMsg(s.wire, m, x, PricesAt(s, x));
  }

  lemma ServeLoad(s: State, x: Side, now: Time, s': State, z: Side)
    requires Next(s, Serve(x, now), s')
    ensures Load(s', z) + (if z == x then ServicePrice(Get(s, x).service) - ServicePrice(Get(s', x).service) else 0)
         <= Load(s, z) + if z != x && Get(s, x).service == FollowStoredOut then 22 else 0
  {
    AllStay(s, Serve(x, now), s');
    LoadsDrop(s, s', z, s.handlers, s.wire);
    if Get(s, x).service == FollowStoredOut {
      AddMsg(s.wire, Msg(Other(x), Follow), z, PricesAt(s', z));
    }
  }

  lemma ServePays(s: State, x: Side, now: Time, s': State)
    requires Next(s, Serve(x, now), s')
    ensures Total(s') < Total(s)
  {
    ServeLoad(s, x, now, s', A);
    ServeLoad(s, x, now, s', B);
  }

  lemma StepPays(s: State, step: Step, s': State)
    requires Next(s, step, s') && RecordedOk(s, A) && RecordedOk(s, B)
    ensures Total(s') <= Total(s) + if step.Deliver? && step.again then 21 else -1
  {
    match step
    case Serve(x, now) => ServePays(s, x, now, s');
    case Deliver(m, again) => DeliverPays(s, m, again, s');
    case Duplicate(m) =>
      DuplicateLoad(s, m, s', A);
      DuplicateLoad(s, m, s', B);
    case Run(h, now) => RunPays(s, h, now, s');
  }

  lemma InvKeepsRecorded(s: State, step: Step, s': State, x: Side)
    requires Inv(s) && Next(s, step, s') && RecordedOk(s, x)
    ensures RecordedOk(s', x)
  {
    assert InvAt(s, x);
    StepKeepsRecorded(s, step, s', x);
  }

  // ---- runs ----------------------------------------------------------------

  lemma {:induction false} AlwaysRecorded(ss: seq<State>, steps: seq<Step>, n: nat, x: Side)
    requires Behaviour(ss, steps) && n < |ss|
    ensures RecordedOk(ss[n], x)
  {
    if n != 0 {
      AlwaysRecorded(ss, steps, n - 1, x);
      AlwaysInv(ss, steps, n - 1);
      InvKeepsRecorded(ss[n - 1], steps[n - 1], ss[n], x);
    }
  }

  /** How many deliveries are repeated later. */
  function Repeats(steps: seq<Step>): nat {
    if steps == [] then 0
    else
      var last := steps[|steps| - 1];
      Repeats(steps[..|steps| - 1]) + if last.Deliver? && last.again then 1 else 0
  }

  lemma RepeatsStep(steps: seq<Step>, n: nat)
    requires 0 < n <= |steps|
    ensures Repeats(steps[..n]) == Repeats(steps[..n - 1]) + if steps[n - 1].Deliver? && steps[n - 1].again then 1 else 0
  {
    assert steps[..n][..n - 1] == steps[..n - 1];
  }

  lemma RunStepPays(ss: seq<State>, steps: seq<Step>, i: nat)
    requires Behaviour(ss, steps) && i < |steps|
    ensures Total(ss[i + 1]) <= Total(ss[i]) + if steps[i].Deliver? && steps[i].again then 21 else -1
  {
    AlwaysRecorded(ss, steps, i, A);
    AlwaysRecorded(ss, steps, i, B);
    StepPays(ss[i], steps[i], ss[i + 1]);
  }

  lemma StartCost(s: State)
    requires s == Initial()
    ensures Total(s) == 50
  {
  }

  lemma {:induction false} Spent(ss: seq<State>, steps: seq<Step>, n: nat)
    requires Behaviour(ss, steps) && n < |ss|
    ensures n + Total(ss[n]) <= 50 + 22 * Repeats(steps[..n])
  {
    if n == 0 {
      StartCost(ss[0]);
    } else {
      Spent(ss, steps, n - 1);
      RunStepPays(ss, steps, n - 1);
      RepeatsStep(steps, n);
    }
  }

  /**
   Every run of the handshake has at most 50 steps and 22 more for each repeated delivery. With
   HandshakeCompletes and OnlyQuiescentStatesRest: whenever senders repeat finitely often, both
   follows end up accepted.
   */
  lemma HandshakeEnds(ss: seq<State>, steps: seq<Step>)
    requires Behaviour(ss, steps)
    ensures |steps| <= 50 + 22 * Repeats(steps)
    ensures (forall step, s' :: !Next(ss[|steps|], step, s')) ==> Mutual(ss[|steps|].a) && Mutual(ss[|steps|].b)
  {
    Spent(ss, steps, |steps|);
    assert steps[..|steps|] == steps;
    if forall step, s' :: !Next(ss[|steps|], step, s') {
      if !Quiescent(ss[|steps|]) {
        OnlyQuiescentStatesRest(ss[|steps|]);
      }
      HandshakeCompletes(ss, steps, |steps|);
    }
  }
}
