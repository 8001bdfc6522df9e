/**
 The handshake does not go too far: in mutual mode a node records a follower only after it has asked
 to follow that node itself, and counts its own follow as accepted only once the other side has
 recorded it.
 */
module Consent {
  import opened Base
  import opened Actors
  import opened Handshake

  /** Promoting the other side, or having promoted it, needs an own follow. */
  ghost predicate Asked(s: State, x: Side) {
    Follower(Get(s, x).row) || At(s, x, Accepting) || At(s, x, Promoting) || At(s, x, WillSendAccept) ==>
      Get(s, x).service != NotStarted
  }

  /** An Accept for x is about to be sent, on its way, being handled or recorded. */
  ghost predicate Sign(s: State, x: Side) {
    || Msg(x, Accept) in s.wire || Msg(x, Accept) in s.seen
    || At(s, x, AcceptArrived) || At(s, x, SawPending) || At(s, x, Recorded)
    || HasAccepted(Get(s, x).row) || At(s, Other(x), WillSendAccept)
  }

  /** An Accept for x, in any form, means that the other side has recorded x as a follower. */
  ghost predicate Granted(s: State, x: Side) {
    Sign(s, x) ==> Follower(Get(s, Other(x)).row)
  }

  lemma ServeKeeps(s: State, x: Side, now: Time, s': State, z: Side)
    requires Served(s, x, now, s') && Asked(s, z) && Granted(s, z) && OutgoingOk(s, z)
    ensures Asked(s', z) && Granted(s', z)
  {
  }

  lemma ArrivalKeeps(s: State, m: Msg, s': State, z: Side)
    requires Arrived(s, m, s') && Asked(s, z) && Granted(s, z)
    ensures Asked(s', z) && Granted(s', z)
  {
  }

  lemma DropKeeps(s: State, m: Msg, s': State, z: Side)
    requires Dropped(s, m, s') && Asked(s, z) && Granted(s, z)
    ensures Asked(s', z) && Granted(s', z)
  {
  }

  lemma RunKeepsAsked(s: State, h: Handler, now: Time, s': State, z: Side)
    requires Ran(s, h, now, s') && Asked(s, z) && OutgoingOk(s, z) && AnsweredCause(s, z)
    ensures Asked(s', z)
  {
  }

  lemma RunKeepsFollower(s: State, h: Handler, now: Time, s': State, z: Side)
    requires Ran(s, h, now, s') && Follower(Get(s, z).row)
    ensures Follower(Get(s', z).row)
  {
  }

  /** A handler brings up the first sign only by promoting. */
  lemma RunSigns(s: State, h: Handler, now: Time, s': State, z: Side)
    requires Ran(s, h, now, s') && Sign(s', z) && !Sign(s, z)
    ensures h == Handler(Other(z), Promoting)
  {
  }

  lemma RunKeepsGranted(s: State, h: Handler, now: Time, s': State, z: Side)
    requires Ran(s, h, now, s') && Granted(s, z)
    ensures Granted(s', z)
  {
    if Sign(s', z) {
      if Sign(s, z) {
        RunKeepsFollower(s, h, now, s', Other(z));
      } else {
        RunSigns(s, h, now, s', z);
      }
    }
  }

  lemma StepKeeps(s: State, step: Step, s': State, z: Side)
    requires Inv(s) && Next(s, step, s') && Asked(s, z) && Granted(s, z)
    ensures Asked(s', z) && Granted(s', z)
  {
    assert InvAt(s, z);
    match step
    case Serve(x, now) =>
      ServeMoves(s, x, now, s');
      ServeKeeps(s, x, now, s', z);
    case Deliver(m, again) =>
      DeliverArrives(s, m, again, s');
      ArrivalKeeps(s, m, s', z);
    case Duplicate(m) =>
      DuplicateDrops(s, m, s');
      DropKeeps(s, m, s', z);
    case Run(h, now) =>
      RunMoves(s, h, now, s');
      RunKeepsAsked(s, h, now, s', z);
      RunKeepsGranted(s, h, now, s', z);
  }

  lemma {:induction false} AlwaysConsented(ss: seq<State>, steps: seq<Step>, n: nat, z: Side)
    requires Behaviour(ss, steps) && n < |ss|
    ensures Asked(ss[n], z) && Granted(ss[n], z)
  {
    if n != 0 {
      AlwaysConsented(ss, steps, n - 1, z);
      AlwaysInv(ss, steps, n - 1);
      StepKeeps(ss[n - 1], steps[n - 1], ss[n], z);
    }
  }

  /**
   In every state of every run: a node that has not asked to follow has no follower recorded, and a
   node whose follow is accepted is recorded as a follower by the other side.
   */
  lemma NoFollowWithoutConsent(ss: seq<State>, steps: seq<Step>, n: nat, x: Side)
    requires Behaviour(ss, steps) && n < |ss|
    ensures Get(ss[n], x).service == NotStarted ==> !Follower(Get(ss[n], x).row)
    ensures HasAccepted(Get(ss[n], x).row) ==> Follower(Get(ss[n], Other(x)).row)
  {
    AlwaysConsented(ss, steps, n, x);
  }
}
