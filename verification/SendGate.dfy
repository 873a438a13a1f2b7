/**
 The two-slot send gate of protocol/batch.go (acquireSlot): one slot reserved for urgent
 sends, one shared slot, each a channel that holds its token while the slot is free.
 */
module SendGate {
  import opened Bytes
  import opened Sums

  datatype Slot = Reserved | Shared

  datatype Sender = Idle | Waiting(urgent: bool) | Sending(slot: Slot, urgent: bool)

  datatype State = State(reservedTok: bool, sharedTok: bool, senders: seq<Sender>)

  /** Acquire polls the reserved slot (urgent only) and falls back to waiting for the shared one. */
  datatype Event = Acquire(i: nat, urgent: bool) | Grant(i: nat) | Release(i: nat)

  function Init(n: nat): State { State(true, true, seq(n, _ => Idle)) }

  function Token(s: State, slot: Slot): bool {
    if slot == Reserved then s.reservedTok else s.sharedTok
  }

  predicate Enabled(s: State, ev: Event) {
    match ev
    case Acquire(i, _) => i < |s.senders| && s.senders[i].Idle?
    case Grant(i) => i < |s.senders| && s.senders[i].Waiting? && s.sharedTok
    // putting the token back blocks if the slot's channel is full
    case Release(i) => i < |s.senders| && s.senders[i].Sending? && !Token(s, s.senders[i].slot)
  }

  function Apply(s: State, ev: Event): State
    requires Enabled(s, ev)
  {
    match ev
    case Acquire(i, urgent) =>
      if urgent && s.reservedTok
      then State(false, s.sharedTok, s.senders[i := Sending(Reserved, true)])
      else s.(senders := s.senders[i := Waiting(urgent)])
    case Grant(i) => State(s.reservedTok, false, s.senders[i := Sending(Shared, s.senders[i].urgent)])
    case Release(i) =>
      if s.senders[i].slot == Reserved
      then State(true, s.sharedTok, s.senders[i := Idle])
      else State(s.reservedTok, true, s.senders[i := Idle])
  }

  function Exec(n: nat, evs: seq<Event>): Option<State> {
    if evs == [] then Some(Init(n))
    else match Exec(n, evs[..|evs| - 1])
      case None => None
      case Some(p) => if Enabled(p, evs[|evs| - 1]) then Some(Apply(p, evs[|evs| - 1])) else None
  }

  function Holds(slot: Slot, x: Sender): nat { if x.Sending? && x.slot == slot then 1 else 0 }
  function OnReserved(x: Sender): nat { Holds(Reserved, x) }
  function OnShared(x: Sender): nat { Holds(Shared, x) }
  function Running(x: Sender): nat { if x.Sending? then 1 else 0 }
  function RunningNormal(x: Sender): nat { if x.Sending? && !x.urgent then 1 else 0 }
  function AsNat(b: bool): nat { if b then 1 else 0 }

  ghost predicate Inv(s: State) {
    && AsNat(s.reservedTok) + Sum(s.senders, OnReserved) == 1
    && AsNat(s.sharedTok) + Sum(s.senders, OnShared) == 1
    && forall i :: 0 <= i < |s.senders| && s.senders[i].Sending? && s.senders[i].slot == Reserved ==>
      s.senders[i].urgent
  }

  lemma StepInv(s: State, ev: Event)
    requires Inv(s) && Enabled(s, ev)
    ensures Inv(Apply(s, ev))
  {
    var x := Apply(s, ev).senders[ev.i];
    SumUpdate(s.senders, ev.i, x, OnReserved);
    SumUpdate(s.senders, ev.i, x, OnShared);
  }

  lemma {:induction false} ReachInv(n: nat, evs: seq<Event>, s: State)
    requires Exec(n, evs) == Some(s)
    ensures Inv(s)
  {
    if evs == [] {
      SumZero(s.senders, OnReserved);
      SumZero(s.senders, OnShared);
    } else {
      var p := Exec(n, evs[..|evs| - 1]).value;
      ReachInv(n, evs[..|evs| - 1], p);
      StepInv(p, evs[|evs| - 1]);
    }
  }

  /** The urgency the sender last asked with. */
  function Asked(evs: seq<Event>, i: nat): Option<bool> {
    if evs == [] then None
    else match evs[|evs| - 1]
      case Acquire(j, urgent) => if i == j then Some(urgent) else Asked(evs[..|evs| - 1], i)
      case _ => Asked(evs[..|evs| - 1], i)
  }

  /** A sender waits and sends with the urgency it asked with. */
  lemma {:induction false} UrgencyIsAsked(n: nat, evs: seq<Event>, s: State, i: nat)
    requires Exec(n, evs) == Some(s) && i < |s.senders| && !s.senders[i].Idle?
    ensures Asked(evs, i) == Some(s.senders[i].urgent)
  {
    var m := |evs| - 1;
    var p := Exec(n, evs[..m]).value;
    if !p.senders[i].Idle? {
      UrgencyIsAsked(n, evs[..m], p, i);
    }
  }

  lemma {:induction false} RunningSplits(senders: seq<Sender>)
    ensures Sum(senders, Running) == Sum(senders, OnReserved) + Sum(senders, OnShared)
  {
    if senders != [] {
      RunningSplits(senders[1..]);
    }
  }

  /**
   In every reachable state each slot's tokens plus holders make one, at most two sends run,
   at most one of them is normal, and a normal send is never on the reserved slot.
   */
  lemma GateSafety(n: nat, evs: seq<Event>, s: State)
    requires Exec(n, evs) == Some(s)
    ensures AsNat(s.reservedTok) + Sum(s.senders, OnReserved) == 1
    ensures AsNat(s.sharedTok) + Sum(s.senders, OnShared) == 1
    ensures Sum(s.senders, Running) <= 2
    ensures Sum(s.senders, RunningNormal) <= 1
    ensures forall i :: 0 <= i < |s.senders| && s.senders[i].Sending? && !s.senders[i].urgent ==>
      s.senders[i].slot == Shared
  {
    ReachInv(n, evs, s);
    RunningSplits(s.senders);
    SumMonotone(s.senders, RunningNormal, OnShared);
  }

  /** A release never blocks: the token it returns is always missing. */
  lemma ReleaseNeverBlocks(n: nat, evs: seq<Event>, s: State, i: nat)
    requires Exec(n, evs) == Some(s) && i < |s.senders| && s.senders[i].Sending?
    ensures Enabled(s, Release(i))
  {
    ReachInv(n, evs, s);
    SumAtLeast(s.senders, i, OnReserved);
    SumAtLeast(s.senders, i, OnShared);
  }

  ghost predicate Busy(s: State, slot: Slot) {
    exists j :: 0 <= j < |s.senders| && s.senders[j].Sending? && s.senders[j].slot == slot
  }

  /** A slot's token is out exactly while a send runs on it. */
  lemma TokenExact(n: nat, evs: seq<Event>, s: State, slot: Slot)
    requires Exec(n, evs) == Some(s)
    ensures Token(s, slot) <==> !Busy(s, slot)
  {
    ReachInv(n, evs, s);
    if Busy(s, slot) {
      var j :| 0 <= j < |s.senders| && s.senders[j].Sending? && s.senders[j].slot == slot;
      SumAtLeast(s.senders, j, if slot == Reserved then OnReserved else OnShared);
    } else if slot == Reserved {
      SumZero(s.senders, OnReserved);
    } else {
      SumZero(s.senders, OnShared);
    }
  }

  /**
   An urgent acquire is served at once, on the reserved slot, if and only if every running send
   is on the shared slot; otherwise it waits.
   */
  lemma UrgentServedExact(n: nat, evs: seq<Event>, s: State, i: nat)
    requires Exec(n, evs) == Some(s) && Enabled(s, Acquire(i, true))
    ensures var x := Apply(s, Acquire(i, true)).senders[i];
      && (x == Sending(Reserved, true) <==>
            forall j :: 0 <= j < |s.senders| && s.senders[j].Sending? ==> s.senders[j].slot == Shared)
      && (x != Sending(Reserved, true) ==> x == Waiting(true))
  {
    TokenExact(n, evs, s, Reserved);
  }

  /** A sender that waits, urgent or not, can take a step if and only if no send runs on the shared slot. */
  lemma WaiterProceedsExact(n: nat, evs: seq<Event>, s: State, i: nat)
    requires Exec(n, evs) == Some(s) && i < |s.senders| && s.senders[i].Waiting?
    ensures (exists ev: Event :: ev.i == i && Enabled(s, ev)) <==> !Busy(s, Shared)
  {
    TokenExact(n, evs, s, Shared);
    assert Grant(i).i == i;
    assert s.sharedTok ==> Enabled(s, Grant(i));
  }

  /** While a send stays on the shared slot, whoever waits goes on waiting, whatever else happens. */
  lemma {:induction false} WaitsWhileSharedIsHeld(n: nat, evs: seq<Event>, s: State, more: seq<Event>, t: State,
                                                  i: nat, j: nat)
    requires Exec(n, evs) == Some(s) && Exec(n, evs + more) == Some(t)
    requires i < |s.senders| && s.senders[i].Waiting?
    requires j < |s.senders| && s.senders[j].Sending? && s.senders[j].slot == Shared
    requires Release(j) !in more
    ensures |t.senders| == |s.senders| && t.senders[i] == s.senders[i] && t.senders[j] == s.senders[j]
    decreases |more|
  {
    if more == [] {
      assert evs + more == evs;
    } else {
      var m := |more| - 1;
      assert (evs + more)[..|evs + more| - 1] == evs + more[..m];
      var p := Exec(n, evs + more[..m]).value;
      WaitsWhileSharedIsHeld(n, evs, s, more[..m], p, i, j);
      TokenExact(n, evs + more[..m], p, Shared);
      assert more[m] in more;
    }
  }

  lemma Extend(n: nat, evs: seq<Event>, s: State, ev: Event) returns (evs': seq<Event>, s': State)
    requires Exec(n, evs) == Some(s) && Enabled(s, ev)
    ensures evs' == evs + [ev] && s' == Apply(s, ev) && Exec(n, evs') == Some(s')
  {
    evs', s' := evs + [ev], Apply(s, ev);
    assert evs'[..|evs|] == evs;
  }

  /**
   A slow send, normal or urgent, can block urgent traffic: from every reachable state with both
   slots busy, an urgent sender that arrives falls back to the shared slot and stays waiting,
   although the reserved slot is given back right after, until the send on the shared one ends.
   */
  lemma FallbackIgnoresReservedSlot(n: nat, evs: seq<Event>, s: State, i: nat, r: nat, j: nat)
    returns (evs': seq<Event>, s': State)
    requires Exec(n, evs) == Some(s) && i < |s.senders| && r < |s.senders| && j < |s.senders|
    requires s.senders[i].Idle? && s.senders[r] == Sending(Reserved, true)
    requires s.senders[j].Sending? && s.senders[j].slot == Shared
    ensures evs' == evs + [Acquire(i, true), Release(r)] && Exec(n, evs') == Some(s')
    ensures s'.reservedTok && s'.senders == s.senders[i := Waiting(true)][r := Idle]
    ensures forall more, t :: Exec(n, evs' + more) == Some(t) && Release(j) !in more ==>
      i < |t.senders| && t.senders[i] == Waiting(true)
  {
    TokenExact(n, evs, s, Reserved);
    evs', s' := Extend(n, evs, s, Acquire(i, true));
    evs', s' := Extend(n, evs', s', Release(r));
    forall more, t | Exec(n, evs' + more) == Some(t) && Release(j) !in more
      ensures i < |t.senders| && t.senders[i] == Waiting(true)
    {
      WaitsWhileSharedIsHeld(n, evs', s', more, t, i, j);
    }
  }
}
