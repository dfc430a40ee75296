// Schedules on which requests fail now and then, never twice in a row and never
// ten times in a short while: what retrying is meant to get through.
module FlakySchedules {
  import opened Wrappers
  import opened Errors
  import opened ObjectStore

  // No signal, nobody else, and the source file as it should be.
  predicate Undistracted(turn: Turn) {
    turn.foreign == map[] && !turn.signal && turn.localRead.Readable? && turn.persisted > 0
  }

  // The connection is refused, breaks or times out, before or after the request
  // took effect.
  predicate FailsOnTheWay(delivery: Delivery) {
    match delivery
    case NotConnected(_, _, body) => !body
    case Lost(_, BrokenExchange(request, timeout, body)) => (request || timeout) && !body
    case _ => false
  }

  // Statuses that a repetition may cure, an expired token among them.
  predicate FailsForNow(delivery: Delivery) {
    delivery.Lost? && delivery.fault.FaultyStatus? && delivery.fault.status in [401, 408, 429, 500, 502, 503, 504]
  }

  predicate Garbled(delivery: Delivery) {
    delivery.Lost? && delivery.fault.UnreadableAnswer?
  }

  // A step at which a request of a resumable upload fails for a while.
  predicate Rough(turn: Turn) {
    Undistracted(turn) && (FailsOnTheWay(turn.delivery) || FailsForNow(turn.delivery) || Garbled(turn.delivery))
  }

  function RoughSteps(turns: nat -> Turn, from: nat, to: nat): nat {
    if to <= from then 0 else RoughSteps(turns, from, to - 1) + if Smooth(turns(to - 1)) then 0 else 1
  }

  // From here on two smooth steps follow every rough one, and of forty consecutive
  // steps at most nine are rough.
  ghost predicate Flaky(turns: nat -> Turn, from: nat) {
    && (forall i {:trigger FlakyAt(turns, i)} :: from <= i ==> FlakyAt(turns, i))
    && (forall i {:trigger RoughSteps(turns, i, i + 40)} :: from <= i ==> RoughSteps(turns, i, i + 40) <= 9)
  }

  predicate FlakyAt(turns: nat -> Turn, i: nat) {
    Smooth(turns(i)) || (Rough(turns(i)) && Recovers(turns, i))
  }

  predicate Recovers(turns: nat -> Turn, i: nat) {
    Smooth(turns(i + 1)) && Smooth(turns(i + 2))
  }

  // The source can be read at step c, and the request after it succeeds, or fails
  // for a while.
  predicate Bears(turns: nat -> Turn, c: nat) {
    turns(c).localRead.Readable? && (Smooth(turns(c + 1)) || (Rough(turns(c + 1)) && Recovers(turns, c + 1)))
  }

  lemma FlakyBears(turns: nat -> Turn, from: nat, c: nat)
    requires Flaky(turns, from) && from <= c
    ensures Bears(turns, c)
  {
    assert FlakyAt(turns, c);
    assert FlakyAt(turns, c + 1);
  }

  // The source can be read at every step.
  lemma FlakyRead(turns: nat -> Turn, from: nat, c: nat)
    requires Flaky(turns, from) && from <= c
    ensures turns(c).localRead.Readable?
  {
    assert FlakyAt(turns, c);
  }

  // A request that opens a session succeeds, or fails readably and for a while.
  predicate BearsOpening(turns: nat -> Turn, c: nat) {
    Smooth(turns(c)) || (Rough(turns(c)) && !Garbled(turns(c).delivery) && Recovers(turns, c))
  }

  lemma FlakyBearsOpening(turns: nat -> Turn, from: nat, c: nat)
    requires Flaky(turns, from) && Legible(turns, from) && from <= c
    ensures BearsOpening(turns, c) && !turns(c).delivery.TokenFailed?
  {
    assert FlakyAt(turns, c);
  }

  // The same for an attempt at a small upload, which may be turned away.
  predicate BearsOnce(turns: nat -> Turn, c: nat) {
    && turns(c).localRead.Readable? && turns(c + 1).localRead.Readable? && turns(c + 3).localRead.Readable?
    && (Smooth(turns(c + 2)) || (Undistracted(turns(c + 2)) && Turned(turns(c + 2).delivery)))
  }

  lemma FlakyBearsOnce(turns: nat -> Turn, from: nat, c: nat)
    requires Flaky(turns, from) && OnlyRefusals(turns, from) && from <= c
    ensures BearsOnce(turns, c)
  {
    assert FlakyAt(turns, c);
    assert FlakyAt(turns, c + 1);
    assert FlakyAt(turns, c + 2);
    assert FlakyAt(turns, c + 3);
  }

  // No answer is unreadable.
  ghost predicate Legible(turns: nat -> Turn, from: nat) {
    forall i {:trigger FlakyAt(turns, i)} :: from <= i ==> !Garbled(turns(i).delivery)
  }

  // A request that fails has not taken effect.
  ghost predicate OnlyRefusals(turns: nat -> Turn, from: nat) {
    forall i {:trigger FlakyAt(turns, i)} :: from <= i ==> Smooth(turns(i)) || Turned(turns(i).delivery)
  }

  predicate Turned(delivery: Delivery) {
    || (delivery.NotConnected? && !delivery.body)
    || (delivery.Lost? && !delivery.applied && delivery.fault.BrokenExchange?
        && delivery.fault.request && !delivery.fault.timeout && !delivery.fault.body)
  }

  lemma {:induction false} MoreSteps(turns: nat -> Turn, from: nat, to: nat, later: nat)
    requires to <= later
    ensures RoughSteps(turns, from, to) <= RoughSteps(turns, from, later)
    decreases later - to
  {
    if to < later { MoreSteps(turns, from, to, later - 1); }
  }

  // After nine rough steps of the last few the next one is smooth.
  lemma NotATenth(turns: nat -> Turn, from: nat, at: nat)
    requires Flaky(turns, from) && from <= at < from + 40 && RoughSteps(turns, from, at) >= 9
    ensures Smooth(turns(at))
  {
    MoreSteps(turns, from, at + 1, from + 40);
    assert RoughSteps(turns, from, from + 40) <= 9;
  }

  lemma OneMoreRough(turns: nat -> Turn, from: nat, at: nat, to: nat)
    requires from <= at < to && !Smooth(turns(at))
    ensures RoughSteps(turns, from, to) >= RoughSteps(turns, from, at) + 1
  {
    MoreSteps(turns, from, at + 1, to);
  }

  lemma FlakyLater(turns: nat -> Turn, from: nat, later: nat)
    requires Flaky(turns, from) && from <= later
    ensures Flaky(turns, later)
    ensures Legible(turns, from) ==> Legible(turns, later)
    ensures OnlyRefusals(turns, from) ==> OnlyRefusals(turns, later)
  {
    forall i | later <= i
      ensures Legible(turns, from) ==> !Garbled(turns(i).delivery)
      ensures OnlyRefusals(turns, from) ==> Smooth(turns(i)) || Turned(turns(i).delivery)
    {
      assert FlakyAt(turns, i);
    }
  }

  // ------------------------------------------------------------ an instance

  // How many of the first n steps are rough if every third one is, nine in all.
  function Nine(n: nat): nat {
    if n >= 26 then 9 else (n + 1) / 3
  }

  function NineRefusals(i: nat): Turn {
    if i < 26 && i % 3 == 1 then SMOOTH.(delivery := NotConnected(true, false, false)) else SMOOTH
  }

  lemma {:induction false} NineInAll(from: nat, to: nat)
    requires from <= to
    ensures RoughSteps(NineRefusals, from, to) == Nine(to) - Nine(from)
  {
    if from < to {
      NineInAll(from, to - 1);
    }
  }

  // Nine refused requests for the first chunk, and the schedule is still flaky.
  lemma FlakyInstance()
    ensures Flaky(NineRefusals, 0) && Legible(NineRefusals, 0) && OnlyRefusals(NineRefusals, 0)
    ensures RoughSteps(NineRefusals, 0, 26) == 9
    ensures forall k: nat {:trigger NineRefusals(3 * k + 1)} :: k < 9 ==> Rough(NineRefusals(3 * k + 1))
  {
    NineInAll(0, 26);
    forall i: nat
      ensures FlakyAt(NineRefusals, i) && !Garbled(NineRefusals(i).delivery)
      ensures Smooth(NineRefusals(i)) || Turned(NineRefusals(i).delivery)
    {
    }
    forall i: nat {:trigger RoughSteps(NineRefusals, i, i + 40)} ensures RoughSteps(NineRefusals, i, i + 40) <= 9 {
      NineInAll(i, i + 40);
    }
  }
}
