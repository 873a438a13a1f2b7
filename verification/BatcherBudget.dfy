/**
 The byte budget under interleaving (Add, admitBytes and Flush in protocol/batch.go). The check
 reads the queue length and the in-flight count one after the other, the write is a later
 critical section, and Flush empties the buffer before it raises the in-flight count. So the
 budget M itself can be exceeded; these are the bounds that do hold, for K concurrent adders and
 frames of at most F marshalled bytes; BatcherBudgetTight shows that both are reached.
 */
module BatcherBudget {
  import opened Bytes
  import opened Frames
  import opened Sums
  import opened Batcher
  import BatcherFifo

  /** Bytes admitted and not yet written. */
  function AdmittedBytes(a: Adder): nat {
    if a.Admitted? then Size(a.e) else 0
  }

  /**
   Bytes this Add call may still put into the buffer without looking at its length again, if
   `room` is what the queue may come to.
   */
  function Claim(room: int, a: Adder): nat {
    match a
    case Admitted(e) => Size(e)
    case Loaded(e, q) => if q + Size(e) <= room then Size(e) else 0
    case _ => 0
  }

  function EntrySize(a: Adder): nat {
    match a
    case Asking(e) => Size(e)
    case Loaded(e, _) => Size(e)
    case Admitted(e) => Size(e)
    case _ => 0
  }

  /** The batch taken but not yet accounted for. */
  function Unaccounted(s: State): nat {
    if s.pc.Accounting? && s.ledger.jobs != [] then s.ledger.jobs[|s.ledger.jobs| - 1].bytes else 0
  }

  /** Everything held in memory: queued, taken, in flight. */
  function LiveBytes(s: State): int {
    |s.store.buf| + Unaccounted(s) + s.ledger.inFlight
  }

  function AdmittedSum(s: State): nat { Sum(s.adders, AdmittedBytes) }

  function ClaimSum(room: int, s: State): nat { Sum(s.adders, a => Claim(room, a)) }

  ghost predicate SmallFrames(s: State, f: nat) {
    forall i :: 0 <= i < |s.adders| ==> EntrySize(s.adders[i]) <= f
  }

  /** Every frame handed to Add marshals to at most f bytes. */
  ghost predicate SmallEvents(evs: seq<Event>, f: nat) {
    forall i :: 0 <= i < |evs| && evs[i].Begin? ==> Size(evs[i].e) <= f
  }

  /** What K adders can bring the queue to. */
  ghost function Bound(cfg: Config, adders: nat, f: nat): int { cfg.budget + (adders - 1) * f }

  // ---------------------------------------------------------------- the invariant

  /** `b` bounds the buffer with all claims on it, and so the batch taken from it. */
  ghost predicate QueueBounded(budget: nat, b: int, s: State) {
    && |s.store.buf| + ClaimSum(budget, s) <= b
    && Unaccounted(s) <= b
  }

  ghost predicate LiveBounded(b: int, s: State) {
    LiveBytes(s) + AdmittedSum(s) <= 2 * b
  }

  /**
   While a batch is taken and not accounted for, only claims that fit beside the bytes in flight
   count: `room` is what those leave of the budget. `g` is what the other adders can add to it.
   */
  ghost predicate Room(room: int, b: int, g: int, s: State) {
    |s.store.buf| + ClaimSum(room, s) + Unaccounted(s) <= b + (if room < 0 then 0 else room) + g
  }

  /** The in-flight count can only fall until the accounting, so every larger room counts too. */
  ghost predicate Window(budget: nat, b: int, g: int, s: State) {
    s.pc.Accounting? ==> forall room: int :: budget - s.ledger.inFlight <= room <= budget ==> Room(room, b, g, s)
  }

  ghost predicate Inv(budget: nat, b: int, s: State) {
    QueueBounded(budget, b, s) && LiveBounded(b, s)
  }

  // ---------------------------------------------------------------- the sums

  lemma AdmittedWithinClaims(room: int, s: State)
    ensures AdmittedSum(s) <= ClaimSum(room, s)
  {
    SumMonotone(s.adders, AdmittedBytes, a => Claim(room, a));
  }

  lemma ClaimsGrow(room: int, more: int, s: State)
    requires room <= more
    ensures ClaimSum(room, s) <= ClaimSum(more, s)
  {
    SumMonotone(s.adders, a => Claim(room, a), a => Claim(more, a));
  }

  lemma AdmittedMoves(s: State, i: nat, a: Adder)
    requires i < |s.adders|
    ensures Sum(s.adders[i := a], AdmittedBytes) + AdmittedBytes(s.adders[i]) == AdmittedSum(s) + AdmittedBytes(a)
  {
    SumUpdate(s.adders, i, a, AdmittedBytes);
  }

  lemma ClaimMoves(room: int, s: State, i: nat, a: Adder)
    requires i < |s.adders|
    ensures Sum(s.adders[i := a], a => Claim(room, a)) + Claim(room, s.adders[i]) == ClaimSum(room, s) + Claim(room, a)
  {
    SumUpdate(s.adders, i, a, a => Claim(room, a));
  }

  /** All claims but the one of adder i. */
  lemma OtherClaims(room: int, f: nat, s: State, i: nat)
    requires i < |s.adders| && SmallFrames(s, f)
    ensures ClaimSum(room, s) <= Claim(room, s.adders[i]) + (|s.adders| - 1) * f
  {
    SumAtMostBut(s.adders, i, a => Claim(room, a), f);
  }

  lemma SmallFramesStep(cfg: Config, f: nat, s: State, ev: Event)
    requires SmallFrames(s, f) && Enabled(cfg, s, ev) && (ev.Begin? ==> Size(ev.e) <= f)
    ensures SmallFrames(Apply(cfg, s, ev), f) && |Apply(cfg, s, ev).adders| == |s.adders|
  {}

  // ---------------------------------------------------------------- the room beside the bytes in flight

  /** A look at the queue: the claim it makes is covered by the length just read. */
  lemma RoomLook(cfg: Config, f: nat, b: int, room: int, s: State, ev: Event, i: nat)
    requires ev == Load(i) || ev == Check(i)
    requires Enabled(cfg, s, ev) && SmallFrames(s, f) && Unaccounted(s) <= b
    requires Room(room, b, (|s.adders| - 1) * f, s) && (ev.Check? ==> cfg.budget - s.ledger.inFlight <= room)
    ensures Room(room, b, (|s.adders| - 1) * f, Apply(cfg, s, ev))
  {
    var t := Apply(cfg, s, ev);
    ClaimMoves(room, s, i, t.adders[i]);
    SmallFramesStep(cfg, f, s, ev);
    OtherClaims(room, f, t, i);
  }

  /** The other steps of an adder make no claim that was not counted. */
  lemma RoomMove(cfg: Config, b: int, g: int, room: int, s: State, ev: Event, i: nat)
    requires (ev.Begin? && ev.i == i) || ev == Refuse(i) || ev == Compare(i) || (ev.Write? && ev.i == i)
      || ev == Signal(i)
    requires Enabled(cfg, s, ev) && Room(room, b, g, s) && (ev.Compare? ==> cfg.budget - s.ledger.inFlight <= room)
    ensures Room(room, b, g, Apply(cfg, s, ev))
  {
    ClaimMoves(room, s, i, Apply(cfg, s, ev).adders[i]);
  }

  /** A take: what was queued and claimed was bounded together. */
  lemma RoomTake(cfg: Config, b: int, g: int, room: int, s: State)
    requires Enabled(cfg, s, Take) && s.store.buf != [] && QueueBounded(cfg.budget, b, s)
      && room <= cfg.budget && g >= 0
    ensures Room(room, b, g, Apply(cfg, s, Take))
  {
    var t := Apply(cfg, s, Take);
    assert ClaimSum(room, t) == ClaimSum(room, s);
    ClaimsGrow(room, cfg.budget, s);
  }

  lemma RoomLoop(cfg: Config, b: int, g: int, room: int, s: State, ev: Event)
    requires Enabled(cfg, s, ev) && Room(room, b, g, s) && s.pc.Accounting? && Apply(cfg, s, ev).adders == s.adders
    requires Apply(cfg, s, ev).pc.Accounting?
    ensures Room(room, b, g, Apply(cfg, s, ev))
  {
    var t := Apply(cfg, s, ev);
    assert ClaimSum(room, t) == ClaimSum(room, s);
    assert t.store == s.store && Unaccounted(t) == Unaccounted(s);
  }

  lemma RoomStep(cfg: Config, f: nat, b: int, room: int, s: State, ev: Event)
    requires Enabled(cfg, s, ev) && SmallFrames(s, f) && QueueBounded(cfg.budget, b, s) && |s.adders| > 0
    requires Window(cfg.budget, b, (|s.adders| - 1) * f, s)
    requires var t := Apply(cfg, s, ev); t.pc.Accounting? && cfg.budget - t.ledger.inFlight <= room <= cfg.budget
    ensures Room(room, b, (|s.adders| - 1) * f, Apply(cfg, s, ev))
  {
    var g := (|s.adders| - 1) * f;
    if ev.Take? {
      RoomTake(cfg, b, g, room, s);
    } else {
      assert Room(room, b, g, s);
      match ev
      case Load(i) => RoomLook(cfg, f, b, room, s, ev, i);
      case Check(i) => RoomLook(cfg, f, b, room, s, ev, i);
      case Begin(i, _) => RoomMove(cfg, b, g, room, s, ev, i);
      case Refuse(i) => RoomMove(cfg, b, g, room, s, ev, i);
      case Compare(i) => RoomMove(cfg, b, g, room, s, ev, i);
      case Write(i, _, _) => RoomMove(cfg, b, g, room, s, ev, i);
      case Signal(i) => RoomMove(cfg, b, g, room, s, ev, i);
      case _ => RoomLoop(cfg, b, g, room, s, ev);
    }
  }

  // ---------------------------------------------------------------- queue and live bytes

  lemma LoadStep(cfg: Config, f: nat, b: int, s: State, i: nat)
    requires Inv(cfg.budget, b, s) && SmallFrames(s, f) && Enabled(cfg, s, Load(i)) && b == Bound(cfg, |s.adders|, f)
    ensures Inv(cfg.budget, b, Apply(cfg, s, Load(i)))
  {
    var t := Apply(cfg, s, Load(i));
    ClaimMoves(cfg.budget, s, i, t.adders[i]);
    AdmittedMoves(s, i, t.adders[i]);
    SmallFramesStep(cfg, f, s, Load(i));
    OtherClaims(cfg.budget, f, t, i);
  }

  /** Check: both loads at one instant, so the whole live total is bounded afresh. */
  lemma CheckStep(cfg: Config, f: nat, b: int, s: State, i: nat)
    requires Inv(cfg.budget, b, s) && SmallFrames(s, f) && Enabled(cfg, s, Check(i)) && b == Bound(cfg, |s.adders|, f)
    requires s.ledger.inFlight >= 0
    ensures Inv(cfg.budget, b, Apply(cfg, s, Check(i)))
  {
    var t := Apply(cfg, s, Check(i));
    ClaimMoves(cfg.budget, s, i, t.adders[i]);
    SmallFramesStep(cfg, f, s, Check(i));
    OtherClaims(cfg.budget, f, t, i);
    AdmittedWithinClaims(cfg.budget, t);
  }

  /** Compare with a stale length: the room was kept free for it, or nothing is unaccounted for. */
  lemma CompareStep(cfg: Config, g: nat, b: int, s: State, i: nat)
    requires Inv(cfg.budget, b, s) && Enabled(cfg, s, Compare(i)) && b == cfg.budget + g
    requires Window(cfg.budget, b, g, s) && s.ledger.inFlight >= 0
    ensures Inv(cfg.budget, b, Apply(cfg, s, Compare(i)))
  {
    var t := Apply(cfg, s, Compare(i));
    ClaimMoves(cfg.budget, s, i, t.adders[i]);
    AdmittedMoves(s, i, t.adders[i]);
    if t.adders[i].Admitted? {
      CompareAdmits(cfg, g, b, s, i);
    }
  }

  lemma CompareAdmits(cfg: Config, g: nat, b: int, s: State, i: nat)
    requires Inv(cfg.budget, b, s) && Enabled(cfg, s, Compare(i)) && b == cfg.budget + g
    requires Window(cfg.budget, b, g, s) && s.ledger.inFlight >= 0
    requires Apply(cfg, s, Compare(i)).adders[i].Admitted?
    ensures LiveBounded(b, Apply(cfg, s, Compare(i)))
  {
    var t, room := Apply(cfg, s, Compare(i)), cfg.budget - s.ledger.inFlight;
    if s.pc.Accounting? {
      ClaimMoves(room, s, i, t.adders[i]);
      AdmittedWithinClaims(room, t);
      assert Room(room, b, g, s);
    } else {
      ClaimMoves(cfg.budget, s, i, t.adders[i]);
      AdmittedWithinClaims(cfg.budget, t);
    }
  }

  /** An adder that gains no claim. */
  lemma MoveStep(cfg: Config, b: int, s: State, ev: Event, i: nat)
    requires Inv(cfg.budget, b, s) && Enabled(cfg, s, ev)
    requires (ev.Begin? && ev.i == i) || ev == Refuse(i) || (ev.Write? && ev.i == i) || ev == Signal(i)
    ensures Inv(cfg.budget, b, Apply(cfg, s, ev))
  {
    ClaimMoves(cfg.budget, s, i, Apply(cfg, s, ev).adders[i]);
    AdmittedMoves(s, i, Apply(cfg, s, ev).adders[i]);
  }

  lemma LoopStep(cfg: Config, b: int, s: State, ev: Event)
    requires Inv(cfg.budget, b, s) && Enabled(cfg, s, ev) && Apply(cfg, s, ev).adders == s.adders
    ensures Inv(cfg.budget, b, Apply(cfg, s, ev))
  {
    var t := Apply(cfg, s, ev);
    assert AdmittedSum(t) == AdmittedSum(s) && ClaimSum(cfg.budget, t) == ClaimSum(cfg.budget, s);
    if ev.Take? {
    } else if ev.Account? {
      assert LiveBytes(t) == LiveBytes(s);
    } else if ev.Finish? {
      assert Unaccounted(t) == Unaccounted(s);
    } else {
      assert t.ledger.jobs == s.ledger.jobs && t.store == s.store && t.ledger.inFlight == s.ledger.inFlight;
    }
  }

  lemma StepInv(cfg: Config, f: nat, g: nat, b: int, s: State, ev: Event)
    requires Inv(cfg.budget, b, s) && SmallFrames(s, f) && Enabled(cfg, s, ev)
    requires b == Bound(cfg, |s.adders|, f) && b == cfg.budget + g
    requires Window(cfg.budget, b, g, s) && s.ledger.inFlight >= 0
    ensures Inv(cfg.budget, b, Apply(cfg, s, ev))
  {
    match ev
    case Begin(i, _) => MoveStep(cfg, b, s, ev, i);
    case Refuse(i) => MoveStep(cfg, b, s, ev, i);
    case Signal(i) => MoveStep(cfg, b, s, ev, i);
    case Write(i, _, _) => MoveStep(cfg, b, s, ev, i);
    case Load(i) => LoadStep(cfg, f, b, s, i);
    case Check(i) => CheckStep(cfg, f, b, s, i);
    case Compare(i) => CompareStep(cfg, g, b, s, i);
    case _ => LoopStep(cfg, b, s, ev);
  }

  lemma WindowStep(cfg: Config, f: nat, b: int, s: State, ev: Event)
    requires Enabled(cfg, s, ev) && SmallFrames(s, f) && QueueBounded(cfg.budget, b, s) && |s.adders| > 0
    requires Window(cfg.budget, b, (|s.adders| - 1) * f, s)
    ensures Window(cfg.budget, b, (|s.adders| - 1) * f, Apply(cfg, s, ev))
  {
    var t, g := Apply(cfg, s, ev), (|s.adders| - 1) * f;
    if t.pc.Accounting? {
      forall room: int | cfg.budget - t.ledger.inFlight <= room <= cfg.budget
        ensures Room(room, b, g, t)
      {
        RoomStep(cfg, f, b, room, s, ev);
      }
    }
  }

  // ---------------------------------------------------------------- every run

  lemma InitInv(budget: nat, b: nat, adders: nat, clock: Time)
    ensures Inv(budget, b, Init(adders, clock))
  {
    var s := Init(adders, clock);
    SumZero(s.adders, AdmittedBytes);
    SumZero(s.adders, a => Claim(budget, a));
  }

  lemma {:induction false} ReachInv(cfg: Config, f: nat, adders: nat, clock: Time, evs: seq<Event>, s: State)
    requires adders > 0 && Reaches(cfg, adders, clock, evs, s) && SmallEvents(evs, f)
    ensures |s.adders| == adders && SmallFrames(s, f)
    ensures Inv(cfg.budget, Bound(cfg, adders, f), s)
    ensures Window(cfg.budget, Bound(cfg, adders, f), (adders - 1) * f, s)
  {
    if evs != [] {
      var front, ev := evs[..|evs| - 1], evs[|evs| - 1];
      var p := Exec(cfg, Init(adders, clock), front).value;
      ReachInv(cfg, f, adders, clock, front, p);
      BatcherFifo.InFlightNonNegative(cfg, adders, clock, front, p);
      assert (adders - 1) * f >= 0;
      StepInv(cfg, f, (adders - 1) * f, Bound(cfg, adders, f), p, ev);
      WindowStep(cfg, f, Bound(cfg, adders, f), p, ev);
      SmallFramesStep(cfg, f, p, ev);
    } else {
      assert (adders - 1) * f >= 0;
      InitInv(cfg.budget, Bound(cfg, adders, f), adders, clock);
    }
  }

  lemma Conclude(cfg: Config, b: int, s: State)
    requires Inv(cfg.budget, b, s)
    ensures |s.store.buf| <= b && LiveBytes(s) <= 2 * b
  {}

  /**
   The budget in every reachable state, each load, check, write, take and accounting being a
   step of its own: the queue never exceeds M + (K-1)F bytes, and all live bytes never exceed
   2M + 2(K-1)F.
   */
  lemma BudgetUnderInterleaving(cfg: Config, f: nat, adders: nat, clock: Time, evs: seq<Event>, s: State)
    requires adders > 0 && Reaches(cfg, adders, clock, evs, s) && SmallEvents(evs, f)
    ensures |s.store.buf| <= cfg.budget + (adders - 1) * f
    ensures LiveBytes(s) <= 2 * (cfg.budget + (adders - 1) * f)
  {
    ReachInv(cfg, f, adders, clock, evs, s);
    Conclude(cfg, Bound(cfg, adders, f), s);
  }
}
