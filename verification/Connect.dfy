/**
 Concurrent CONNECT attempts (tryConnect and the onConnectACK callback in tunnel/client.go):
 per-link admission semaphores, per-link stream counters and the pending-ACK map, shared by
 any number of attempts. Each step is one atomic operation of one attempt on these, or an ACK
 coming in; Register also stands for NewConn before and the send of CONNECT after the map entry
 is set, which touch none of them.

 The ack channel of an attempt is named by the attempt; `acks` counts how often it is closed.
 */
module Connect {
  import opened Bytes
  import opened Sums

  const MAX_IN_FLIGHT_CONNECTS_PER_LINK := 2

  /** Where an attempt is; each name says what it has just done. */
  datatype Pc =
    | Queued      // waiting for an admission slot
    | Admitted    // slot taken
    | Streaming   // AcquireStream done
    | Waiting     // conn made, pending entry set, CONNECT sent
    | SawAck      // the select chose the ack channel
    | GaveUp      // the select chose the conn's close channel or the timeout
    | Released    // giving up: slot returned
    | Unlisted    // giving up: pending entry deleted
    | Relaying    // acknowledged: slot returned
    | Done

  datatype Attempt = Attempt(link: nat, id: uint32, pc: Pc, acks: nat)

  datatype State = State(attempts: seq<Attempt>, sem: seq<nat>, streams: seq<int>, pending: map<uint32, nat>)

  datatype Event =
    | Start(link: nat)
    | Admit(i: nat) | AdmitTimeout(i: nat)
    | AcquireStream(i: nat) | Register(i: nat, id: uint32)
    | Ack(ackId: uint32)
    | SeeAck(i: nat) | GiveUp(i: nat)
    | ReleaseSlot(i: nat) | Unlist(i: nat) | ReleaseStream(i: nat)

  function Init(links: nat): State {
    State([], seq(links, _ => 0), seq(links, _ => 0), map[])
  }

  predicate Shaped(s: State) {
    |s.sem| == |s.streams| && forall i :: 0 <= i < |s.attempts| ==> s.attempts[i].link < |s.sem|
  }

  predicate At(s: State, i: nat, pc: Pc) {
    i < |s.attempts| && s.attempts[i].pc == pc
  }

  predicate Enabled(s: State, ev: Event)
    requires Shaped(s)
  {
    match ev
    case Start(link) => link < |s.sem|
    case Admit(i) => At(s, i, Queued) && s.sem[s.attempts[i].link] < MAX_IN_FLIGHT_CONNECTS_PER_LINK
    case AdmitTimeout(i) => At(s, i, Queued)
    case AcquireStream(i) => At(s, i, Admitted)
    case Register(i, _) => At(s, i, Streaming)
    case Ack(_) => true
    case SeeAck(i) => At(s, i, Waiting) && s.attempts[i].acks > 0
    case GiveUp(i) => At(s, i, Waiting)
    // taking from an empty semaphore channel would block
    case ReleaseSlot(i) => (At(s, i, SawAck) || At(s, i, GaveUp)) && s.sem[s.attempts[i].link] > 0
    case Unlist(i) => At(s, i, Released)
    case ReleaseStream(i) => At(s, i, Relaying) || At(s, i, Unlisted)
  }

  /** Attempt i moves on. */
  function Move(s: State, i: nat, pc: Pc): State
    requires i < |s.attempts|
  {
    s.(attempts := s.attempts[i := s.attempts[i].(pc := pc)])
  }

  function Apply(s: State, ev: Event): State
    requires Shaped(s) && Enabled(s, ev)
  {
    match ev
    case Start(link) => s.(attempts := s.attempts + [Attempt(link, 0, Queued, 0)])
    case Admit(i) =>
      var l := s.attempts[i].link;
      Move(s, i, Admitted).(sem := s.sem[l := s.sem[l] + 1])
    case AdmitTimeout(i) => Move(s, i, Done)
    case AcquireStream(i) =>
      var l := s.attempts[i].link;
      Move(s, i, Streaming).(streams := s.streams[l := s.streams[l] + 1])
    case Register(i, id) =>
      s.(attempts := s.attempts[i := s.attempts[i].(pc := Waiting, id := id)], pending := s.pending[id := i])
    case Ack(id) =>
      if id in s.pending && s.pending[id] < |s.attempts| then
        var j := s.pending[id];
        s.(attempts := s.attempts[j := s.attempts[j].(acks := s.attempts[j].acks + 1)], pending := s.pending - {id})
      else s
    case SeeAck(i) => Move(s, i, SawAck)
    case GiveUp(i) => Move(s, i, GaveUp)
    case ReleaseSlot(i) =>
      var l := s.attempts[i].link;
      Move(s, i, if s.attempts[i].pc.SawAck? then Relaying else Released).(sem := s.sem[l := s.sem[l] - 1])
    case Unlist(i) => Move(s, i, Unlisted).(pending := s.pending - {s.attempts[i].id})
    case ReleaseStream(i) =>
      var l := s.attempts[i].link;
      Move(s, i, Done).(streams := s.streams[l := s.streams[l] - 1])
  }

  lemma ApplyShaped(s: State, ev: Event)
    requires Shaped(s) && Enabled(s, ev)
    ensures Shaped(Apply(s, ev)) && |Apply(s, ev).sem| == |s.sem|
  {}

  function Exec(links: nat, evs: seq<Event>): (r: Option<State>)
    ensures r.Some? ==> Shaped(r.value) && |r.value.sem| == links
  {
    if evs == [] then Some(Init(links))
    else match Exec(links, evs[..|evs| - 1])
      case None => None
      case Some(p) =>
        if Enabled(p, evs[|evs| - 1]) then
          ApplyShaped(p, evs[|evs| - 1]);
          Some(Apply(p, evs[|evs| - 1]))
        else None
  }

  // ---------------------------------------------------------------- slots and streams

  predicate HasSlot(pc: Pc) {
    pc.Admitted? || pc.Streaming? || pc.Waiting? || pc.SawAck? || pc.GaveUp?
  }

  predicate HasStream(pc: Pc) {
    (HasSlot(pc) && !pc.Admitted?) || pc.Released? || pc.Unlisted? || pc.Relaying?
  }

  function SlotOn(l: nat): Attempt -> nat {
    (a: Attempt) => if a.link == l && HasSlot(a.pc) then 1 else 0
  }

  function StreamOn(l: nat): Attempt -> nat {
    (a: Attempt) => if a.link == l && HasStream(a.pc) then 1 else 0
  }

  /** The semaphore and the counter of link l count the attempts that hold them. */
  ghost predicate Counts(s: State, l: nat)
    requires Shaped(s) && l < |s.sem|
  {
    && s.sem[l] == Sum(s.attempts, SlotOn(l)) <= MAX_IN_FLIGHT_CONNECTS_PER_LINK
    && s.streams[l] == Sum(s.attempts, StreamOn(l))
  }

  lemma MoveCounts(s: State, i: nat, a: Attempt, l: nat)
    requires i < |s.attempts|
    ensures Sum(s.attempts[i := a], SlotOn(l)) + SlotOn(l)(s.attempts[i]) == Sum(s.attempts, SlotOn(l)) + SlotOn(l)(a)
    ensures Sum(s.attempts[i := a], StreamOn(l)) + StreamOn(l)(s.attempts[i]) ==
      Sum(s.attempts, StreamOn(l)) + StreamOn(l)(a)
  {
    SumUpdate(s.attempts, i, a, SlotOn(l));
    SumUpdate(s.attempts, i, a, StreamOn(l));
  }

  /** One attempt moves and its link's counters follow. */
  lemma CountsFollow(s: State, t: State, i: nat, l: nat)
    requires Shaped(s) && Shaped(t) && |t.sem| == |s.sem| && l < |s.sem| && Counts(s, l)
    requires i < |s.attempts| == |t.attempts| && t.attempts == s.attempts[i := t.attempts[i]]
    requires t.sem[l] + SlotOn(l)(s.attempts[i]) == s.sem[l] + SlotOn(l)(t.attempts[i])
    requires t.streams[l] + StreamOn(l)(s.attempts[i]) == s.streams[l] + StreamOn(l)(t.attempts[i])
    requires t.sem[l] <= MAX_IN_FLIGHT_CONNECTS_PER_LINK
    ensures Counts(t, l)
  {
    MoveCounts(s, i, t.attempts[i], l);
  }

  lemma StartCounts(s: State, link: nat, l: nat)
    requires Shaped(s) && Enabled(s, Start(link)) && l < |s.sem| && Counts(s, l)
    ensures Shaped(Apply(s, Start(link))) && Counts(Apply(s, Start(link)), l)
  {
    SumAppend(s.attempts, Attempt(link, 0, Queued, 0), SlotOn(l));
    SumAppend(s.attempts, Attempt(link, 0, Queued, 0), StreamOn(l));
  }

  /** A slot or a stream changes hands. */
  lemma HandoverCounts(s: State, ev: Event, l: nat)
    requires Shaped(s) && Enabled(s, ev) && l < |s.sem| && Counts(s, l)
    requires ev.Admit? || ev.ReleaseSlot? || ev.AcquireStream? || ev.ReleaseStream?
    ensures Shaped(Apply(s, ev)) && Counts(Apply(s, ev), l)
  {
    ApplyShaped(s, ev);
    CountsFollow(s, Apply(s, ev), ev.i, l);
  }

  lemma CountsStep(s: State, ev: Event, l: nat)
    requires Shaped(s) && Enabled(s, ev) && l < |s.sem| && Counts(s, l)
    ensures var t := Apply(s, ev); Shaped(t) && l < |t.sem| && Counts(t, l)
  {
    ApplyShaped(s, ev);
    match ev
    case Start(link) => StartCounts(s, link, l);
    case Ack(id) =>
      if id in s.pending && s.pending[id] < |s.attempts| {
        CountsFollow(s, Apply(s, ev), s.pending[id], l);
      }
    case Admit(_) => HandoverCounts(s, ev, l);
    case ReleaseSlot(_) => HandoverCounts(s, ev, l);
    case AcquireStream(_) => HandoverCounts(s, ev, l);
    case ReleaseStream(_) => HandoverCounts(s, ev, l);
    case _ => CountsFollow(s, Apply(s, ev), ev.i, l);
  }

  // ---------------------------------------------------------------- the pending map

  /** The attempt may still have its entry in the map. */
  predicate Listed(pc: Pc) { pc.Waiting? || pc.GaveUp? || pc.Released? }

  /** Each entry belongs to a listed attempt whose channel is still open; no channel is closed twice. */
  ghost predicate Entries(s: State) {
    && (forall id :: id in s.pending ==>
         && s.pending[id] < |s.attempts|
         && s.attempts[s.pending[id]].id == id
         && s.attempts[s.pending[id]].acks == 0
         && Listed(s.attempts[s.pending[id]].pc))
    && (forall i :: 0 <= i < |s.attempts| ==> s.attempts[i].acks <= 1)
    && (forall i :: 0 <= i < |s.attempts| ==> s.attempts[i].pc in {Queued, Admitted, Streaming} ==>
      s.attempts[i].acks == 0)
  }

  /** An attempt that moves on without touching the map. */
  lemma MoveEntries(s: State, t: State, i: nat)
    requires Entries(s) && i < |s.attempts| == |t.attempts|
    requires t.pending == s.pending && t.attempts == s.attempts[i := s.attempts[i].(pc := t.attempts[i].pc)]
    requires s.attempts[i].acks == 0 && Listed(s.attempts[i].pc) ==> Listed(t.attempts[i].pc)
    requires t.attempts[i].pc in {Queued, Admitted, Streaming} ==> s.attempts[i].pc in {Queued, Admitted, Streaming}
    ensures Entries(t)
  {}

  lemma MapEntries(s: State, ev: Event)
    requires Shaped(s) && Enabled(s, ev) && Entries(s) && (ev.Register? || ev.Ack? || ev.Unlist?)
    ensures Entries(Apply(s, ev))
  {}

  lemma EntriesStep(s: State, ev: Event)
    requires Shaped(s) && Enabled(s, ev) && Entries(s)
    ensures Entries(Apply(s, ev))
  {
    if ev.Register? || ev.Ack? || ev.Unlist? {
      MapEntries(s, ev);
    } else if ev.Start? {
    } else {
      MoveEntries(s, Apply(s, ev), ev.i);
    }
  }

  ghost predicate Inv(s: State) {
    Shaped(s) && Entries(s) && forall l :: 0 <= l < |s.sem| ==> Counts(s, l)
  }

  lemma {:induction false} ReachInv(links: nat, evs: seq<Event>, s: State)
    requires Exec(links, evs) == Some(s)
    ensures Inv(s) && |s.sem| == links
  {
    if evs != [] {
      var p := Exec(links, evs[..|evs| - 1]).value;
      ReachInv(links, evs[..|evs| - 1], p);
      EntriesStep(p, evs[|evs| - 1]);
      forall l | 0 <= l < |s.sem| ensures Counts(s, l) {
        assert Counts(p, l);
        CountsStep(p, evs[|evs| - 1], l);
      }
    }
  }

  /**
   The resource invariant, in every reachable state: per link the semaphore holds exactly one
   token per attempt between admission and known outcome, at most two; the stream counter is
   the number of attempts holding a stream, so never negative; no ack channel is closed twice.
   */
  lemma ResourceInvariant(links: nat, evs: seq<Event>, s: State, l: nat)
    requires Exec(links, evs) == Some(s) && l < links
    ensures l < |s.sem| == |s.streams|
    ensures s.sem[l] == Sum(s.attempts, SlotOn(l)) && s.sem[l] <= 2
    ensures s.streams[l] == Sum(s.attempts, StreamOn(l)) && s.streams[l] >= 0
    ensures forall i :: 0 <= i < |s.attempts| ==> s.attempts[i].acks <= 1
  {
    ReachInv(links, evs, s);
    assert Counts(s, l);
  }

  /** Returning an admission slot never blocks. */
  lemma ReleaseNeverBlocks(links: nat, evs: seq<Event>, s: State, i: nat)
    requires Exec(links, evs) == Some(s) && (At(s, i, SawAck) || At(s, i, GaveUp))
    ensures Enabled(s, ReleaseSlot(i))
  {
    ReachInv(links, evs, s);
    var l := s.attempts[i].link;
    assert Counts(s, l);
    SumAtLeast(s.attempts, i, SlotOn(l));
  }

  /** Once every attempt has ended, nothing is left behind: no slot, no stream, no pending entry. */
  lemma QuiescentIsClean(links: nat, evs: seq<Event>, s: State)
    requires Exec(links, evs) == Some(s)
    requires forall i :: 0 <= i < |s.attempts| ==> s.attempts[i].pc.Done?
    ensures s.pending == map[]
    ensures forall l :: 0 <= l < links ==> s.sem[l] == 0 && s.streams[l] == 0
  {
    ReachInv(links, evs, s);
    forall l | 0 <= l < links ensures s.sem[l] == 0 && s.streams[l] == 0 {
      assert Counts(s, l);
      SumZero(s.attempts, SlotOn(l));
      SumZero(s.attempts, StreamOn(l));
    }
    assert s.pending.Keys == {};
  }

  // ---------------------------------------------------------------- how an attempt ends

  /** After k events of the run the attempt is relaying. */
  ghost predicate RelayingAfter(links: nat, evs: seq<Event>, k: nat, i: nat)
    requires k <= |evs|
  {
    match Exec(links, evs[..k])
    case None => false
    case Some(p) => At(p, i, Relaying)
  }

  /** At some point of the run the attempt was relaying. */
  ghost predicate WasRelaying(links: nat, evs: seq<Event>, i: nat) {
    exists k :: 0 <= k <= |evs| && RelayingAfter(links, evs, k, i)
  }

  /** What has happened to an attempt, by where it is: acknowledged, given up, or never admitted. */
  ghost predicate Story(pc: Pc, saw: bool, gave: bool, unlisted: bool, relayed: bool, refused: bool) {
    match pc
    case SawAck => saw && !gave && !unlisted && !relayed && !refused
    case Relaying => saw && !gave && !unlisted && relayed && !refused
    case GaveUp => !saw && gave && !unlisted && !relayed && !refused
    case Released => !saw && gave && !unlisted && !relayed && !refused
    case Unlisted => !saw && gave && unlisted && !relayed && !refused
    case Done =>
      || (saw && !gave && !unlisted && relayed && !refused)
      || (!saw && gave && unlisted && !relayed && !refused)
      || (!saw && !gave && !unlisted && !relayed && refused)
    case _ => !saw && !gave && !unlisted && !relayed && !refused
  }

  lemma StoryStep(s: State, ev: Event, i: nat, saw: bool, gave: bool, unlisted: bool, relayed: bool, refused: bool)
    requires Shaped(s) && Enabled(s, ev) && i < |s.attempts|
    requires Story(s.attempts[i].pc, saw, gave, unlisted, relayed, refused)
    ensures var t := Apply(s, ev);
      && i < |t.attempts|
      && Story(t.attempts[i].pc, saw || ev == SeeAck(i), gave || ev == GiveUp(i), unlisted || ev == Unlist(i),
               relayed || t.attempts[i].pc.Relaying?, refused || ev == AdmitTimeout(i))
  {}

  lemma RelayingLast(links: nat, evs: seq<Event>, s: State, i: nat)
    requires evs != [] && Exec(links, evs) == Some(s)
    ensures WasRelaying(links, evs, i) <==> WasRelaying(links, evs[..|evs| - 1], i) || At(s, i, Relaying)
  {
    var n, front := |evs|, evs[..|evs| - 1];
    assert evs[..n] == evs;
    assert RelayingAfter(links, evs, n, i) <==> At(s, i, Relaying);
    forall k | 0 <= k < n ensures RelayingAfter(links, front, k, i) <==> RelayingAfter(links, evs, k, i) {
      assert front[..k] == evs[..k];
    }
  }

  lemma InLast(evs: seq<Event>, ev: Event)
    requires evs != []
    ensures ev in evs <==> ev in evs[..|evs| - 1] || ev == evs[|evs| - 1]
  {
    assert evs == evs[..|evs| - 1] + [evs[|evs| - 1]];
  }

  /** An attempt that has not started has no events. */
  lemma {:induction false} NotYet(links: nat, evs: seq<Event>, s: State, i: nat)
    requires Exec(links, evs) == Some(s) && |s.attempts| <= i
    ensures SeeAck(i) !in evs && GiveUp(i) !in evs && Unlist(i) !in evs && AdmitTimeout(i) !in evs
    ensures !WasRelaying(links, evs, i)
  {
    if evs == [] {
      assert evs[..0] == evs;
      assert !RelayingAfter(links, evs, 0, i);
    } else {
      var n := |evs| - 1;
      var p := Exec(links, evs[..n]).value;
      NotYet(links, evs[..n], p, i);
      RelayingLast(links, evs, s, i);
    }
  }

  lemma {:induction false} StoryOf(links: nat, evs: seq<Event>, s: State, i: nat)
    requires Exec(links, evs) == Some(s) && i < |s.attempts|
    ensures Story(s.attempts[i].pc, SeeAck(i) in evs, GiveUp(i) in evs, Unlist(i) in evs, WasRelaying(links, evs, i),
                  AdmitTimeout(i) in evs)
  {
    var n := |evs| - 1;
    var front, p := evs[..n], Exec(links, evs[..n]).value;
    RelayingLast(links, evs, s, i);
    InLast(evs, SeeAck(i));
    InLast(evs, GiveUp(i));
    InLast(evs, Unlist(i));
    InLast(evs, AdmitTimeout(i));
    if i < |p.attempts| {
      StoryOf(links, front, p, i);
      StoryStep(p, evs[n], i, SeeAck(i) in front, GiveUp(i) in front, Unlist(i) in front, WasRelaying(links, front, i),
                AdmitTimeout(i) in front);
    } else {
      NotYet(links, front, p, i);
    }
  }

  /**
   How an attempt ends. It was relayed if and only if it saw its ACK; it took its entry off the
   map if and only if it gave up; and it did exactly one of these or was never admitted.
   */
  lemma OutcomeExact(links: nat, evs: seq<Event>, s: State, i: nat)
    requires Exec(links, evs) == Some(s) && At(s, i, Done)
    ensures WasRelaying(links, evs, i) <==> SeeAck(i) in evs
    ensures Unlist(i) in evs <==> GiveUp(i) in evs
    ensures SeeAck(i) in evs ==> GiveUp(i) !in evs && AdmitTimeout(i) !in evs
    ensures GiveUp(i) in evs ==> AdmitTimeout(i) !in evs
    ensures SeeAck(i) in evs || GiveUp(i) in evs || AdmitTimeout(i) in evs
  {
    StoryOf(links, evs, s, i);
  }

  /** The links of the attempts started, in order. */
  function LinksIn(evs: seq<Event>): seq<nat> {
    if evs == [] then []
    else match evs[|evs| - 1]
      case Start(link) => LinksIn(evs[..|evs| - 1]) + [link]
      case _ => LinksIn(evs[..|evs| - 1])
  }

  /** Each attempt stays on the link it was started on. */
  lemma {:induction false} AttemptsAreRun(links: nat, evs: seq<Event>, s: State)
    requires Exec(links, evs) == Some(s)
    ensures |s.attempts| == |LinksIn(evs)|
    ensures forall i :: 0 <= i < |s.attempts| ==> s.attempts[i].link == LinksIn(evs)[i]
  {
    if evs != [] {
      var p := Exec(links, evs[..|evs| - 1]).value;
      AttemptsAreRun(links, evs[..|evs| - 1], p);
      AttemptsStep(p, evs[|evs| - 1]);
    }
  }

  lemma AttemptsStep(s: State, ev: Event)
    requires Shaped(s) && Enabled(s, ev)
    ensures var t := Apply(s, ev);
      && |t.attempts| == |s.attempts| + (if ev.Start? then 1 else 0)
      && (forall i :: 0 <= i < |s.attempts| ==> t.attempts[i].link == s.attempts[i].link)
      && (ev.Start? ==> t.attempts[|s.attempts|].link == ev.link)
  {}

  /** The event opens the attempt's channel: an ACK under the ID whose entry it owns. */
  predicate Opens(s: State, ev: Event, i: nat) {
    ev.Ack? && ev.ackId in s.pending && s.pending[ev.ackId] == i
  }

  /** An attempt that has been acknowledged was so by an ACK for the ID it registered under. */
  lemma {:induction false} AckedByAck(links: nat, evs: seq<Event>, s: State, i: nat) returns (k: nat, p: State)
    requires Exec(links, evs) == Some(s) && i < |s.attempts| && s.attempts[i].acks > 0
    ensures k < |evs| && Exec(links, evs[..k]) == Some(p) && Opens(p, evs[k], i)
    ensures i < |p.attempts| && p.attempts[i].id == evs[k].ackId
  {
    var n := |evs| - 1;
    var q := Exec(links, evs[..n]).value;
    ReachInv(links, evs[..n], q);
    if i < |q.attempts| && q.attempts[i].acks > 0 {
      k, p := AckedByAck(links, evs[..n], q, i);
      assert evs[..n][..k] == evs[..k];
    } else {
      AcksStep(q, evs[n], i);
      k, p := n, q;
    }
  }

  lemma AcksStep(s: State, ev: Event, i: nat)
    requires Shaped(s) && Enabled(s, ev) && Entries(s) && i < |Apply(s, ev).attempts|
    requires Apply(s, ev).attempts[i].acks > 0 && !(i < |s.attempts| && s.attempts[i].acks > 0)
    ensures i < |s.attempts| && Opens(s, ev, i) && s.attempts[i].id == ev.ackId
  {}

  /** So nothing is relayed without an ACK: before it saw one, one opened its channel. */
  lemma {:induction false} SeenOnlyAfterAck(links: nat, evs: seq<Event>, s: State, i: nat) returns (k: nat, p: State)
    requires Exec(links, evs) == Some(s) && SeeAck(i) in evs
    ensures k < |evs| && Exec(links, evs[..k]) == Some(p) && Opens(p, evs[k], i) && SeeAck(i) !in evs[..k]
    ensures i < |p.attempts| && p.attempts[i].id == evs[k].ackId
  {
    var n := |evs| - 1;
    var q := Exec(links, evs[..n]).value;
    if SeeAck(i) in evs[..n] {
      k, p := SeenOnlyAfterAck(links, evs[..n], q, i);
      assert evs[..n][..k] == evs[..k];
    } else {
      k, p := AckedByAck(links, evs[..n], q, i);
      assert evs[..n][..k] == evs[..k];
    }
  }

  // ---------------------------------------------------------------- whose ACK it is

  /** No other listed attempt, on any link, uses this conn ID. */
  ghost predicate Unused(s: State, id: uint32) {
    forall j :: 0 <= j < |s.attempts| && Listed(s.attempts[j].pc) ==> s.attempts[j].id != id
  }

  /** Conn IDs are unique across links, not only within each mux. */
  ghost predicate IdsUnique(links: nat, evs: seq<Event>) {
    forall k :: 0 <= k < |evs| && evs[k].Register? && Exec(links, evs[..k]).Some? ==>
      Unused(Exec(links, evs[..k]).value, evs[k].id)
  }

  /** Every listed attempt with an open channel owns the entry under its ID. */
  ghost predicate Owned(s: State) {
    forall i :: 0 <= i < |s.attempts| && Listed(s.attempts[i].pc) && s.attempts[i].acks == 0 ==>
      s.attempts[i].id in s.pending && s.pending[s.attempts[i].id] == i
  }

  ghost predicate Distinct(s: State) {
    forall i, j :: 0 <= i < j < |s.attempts| && Listed(s.attempts[i].pc) && Listed(s.attempts[j].pc) ==>
      s.attempts[i].id != s.attempts[j].id
  }

  lemma DistinctStep(s: State, ev: Event)
    requires Shaped(s) && Enabled(s, ev) && Distinct(s) && (ev.Register? ==> Unused(s, ev.id))
    ensures Distinct(Apply(s, ev))
  {}

  lemma OwnedStep(s: State, ev: Event)
    requires Shaped(s) && Enabled(s, ev) && Entries(s) && Owned(s) && Distinct(s)
    requires ev.Register? ==> Unused(s, ev.id)
    ensures Owned(Apply(s, ev))
  {}

  lemma {:induction false} ReachOwned(links: nat, evs: seq<Event>, s: State)
    requires Exec(links, evs) == Some(s) && IdsUnique(links, evs)
    ensures Owned(s) && Distinct(s)
  {
    if evs != [] {
      var n := |evs| - 1;
      var front := evs[..n];
      var p := Exec(links, front).value;
      forall k | 0 <= k < |front| && front[k].Register? && Exec(links, front[..k]).Some?
        ensures Unused(Exec(links, front[..k]).value, front[k].id)
      {
        assert front[..k] == evs[..k];
      }
      ReachOwned(links, front, p);
      ReachInv(links, front, p);
      assert evs[n].Register? ==> Unused(p, evs[n].id);
      DistinctStep(p, evs[n]);
      OwnedStep(p, evs[n]);
    }
  }

  /** With unique IDs an ACK reaches the attempt it answers, and only that one. */
  lemma AckReachesItsAttempt(links: nat, evs: seq<Event>, s: State, i: nat)
    requires Exec(links, evs) == Some(s) && IdsUnique(links, evs)
    requires At(s, i, Waiting) && s.attempts[i].acks == 0
    ensures var t := Apply(s, Ack(s.attempts[i].id));
      t.attempts == s.attempts[i := s.attempts[i].(acks := 1)] && Enabled(t, SeeAck(i))
  {
    ReachOwned(links, evs, s);
  }

  // ---------------------------------------------------------------- exactly whose ACK it is

  /** The event overwrites or deletes the entry under this ID: another registration, or an unlisting. */
  predicate Touches(s: State, ev: Event, id: uint32) {
    match ev
    case Register(_, other) => other == id
    case Unlist(i) => i < |s.attempts| && s.attempts[i].id == id
    case _ => false
  }

  ghost predicate Disturbs(links: nat, evs: seq<Event>, m: nat, id: uint32)
    requires m < |evs|
  {
    match Exec(links, evs[..m])
    case None => false
    case Some(p) => Touches(p, evs[m], id)
  }

  /** Nothing after event k touched the entry under this ID, ACKs aside. */
  ghost predicate Undisturbed(links: nat, evs: seq<Event>, k: nat, id: uint32) {
    forall m :: k < m < |evs| ==> !Disturbs(links, evs, m, id)
  }

  predicate Owns(s: State, i: nat, id: uint32) { id in s.pending && s.pending[id] == i }

  ghost predicate Registered(s: State, i: nat, id: uint32) {
    i < |s.attempts| && s.attempts[i].id == id && s.attempts[i].pc !in {Queued, Admitted, Streaming}
  }

  lemma RegisteredStep(s: State, ev: Event, i: nat, id: uint32)
    requires Shaped(s) && Enabled(s, ev) && Registered(s, i, id)
    ensures Registered(Apply(s, ev), i, id) && s.attempts[i].acks <= Apply(s, ev).attempts[i].acks
  {}

  /** After the registration the entry stays unless it is touched, and does not come back. */
  lemma OwnsStep(s: State, ev: Event, i: nat, id: uint32)
    requires Shaped(s) && Enabled(s, ev) && Registered(s, i, id)
    ensures var t := Apply(s, ev);
      i < |t.attempts| && (t.attempts[i].acks == 0 ==> (Owns(t, i, id) <==> Owns(s, i, id) && !Touches(s, ev, id)))
  {
    RegisteredStep(s, ev, i, id);
    if !ev.Register? && !ev.Ack? && !ev.Unlist? {
      assert Apply(s, ev).pending == s.pending;
    }
  }

  lemma UndisturbedLast(links: nat, evs: seq<Event>, k: nat, id: uint32)
    requires k < |evs| - 1
    ensures Undisturbed(links, evs, k, id) <==>
      Undisturbed(links, evs[..|evs| - 1], k, id) && !Disturbs(links, evs, |evs| - 1, id)
  {
    var front := evs[..|evs| - 1];
    forall m | k < m < |front| ensures Disturbs(links, front, m, id) <==> Disturbs(links, evs, m, id) {
      assert front[..m] == evs[..m];
    }
  }

  lemma {:induction false} OwnsExact(links: nat, evs: seq<Event>, s: State, k: nat, i: nat, id: uint32)
    requires Exec(links, evs) == Some(s) && k < |evs| && evs[k] == Register(i, id)
    ensures Registered(s, i, id)
    ensures s.attempts[i].acks == 0 ==> (Owns(s, i, id) <==> Undisturbed(links, evs, k, id))
  {
    var n := |evs| - 1;
    var p := Exec(links, evs[..n]).value;
    if k < n {
      OwnsExact(links, evs[..n], p, k, i, id);
      RegisteredStep(p, evs[n], i, id);
      OwnsStep(p, evs[n], i, id);
      UndisturbedLast(links, evs, k, id);
    }
  }

  /**
   Exactly when an ACK reaches its attempt: it opens the channel of the attempt that registered
   the ID at event k if and only if since then no attempt, on any link, has registered the same
   ID or taken its entry off the map. Otherwise that attempt is left as it was.
   */
  lemma AckReachesExact(links: nat, evs: seq<Event>, s: State, k: nat, i: nat, id: uint32)
    requires Exec(links, evs) == Some(s) && k < |evs| && evs[k] == Register(i, id)
    requires At(s, i, Waiting) && s.attempts[i].acks == 0
    ensures var t := Apply(s, Ack(id));
      && (Enabled(t, SeeAck(i)) <==> Undisturbed(links, evs, k, id))
      && t.attempts[i] == s.attempts[i].(acks := if Undisturbed(links, evs, k, id) then 1 else 0)
  {
    OwnsExact(links, evs, s, k, i, id);
    ReachInv(links, evs, s);
  }

  lemma Extend(links: nat, evs: seq<Event>, s: State, ev: Event) returns (evs': seq<Event>, s': State)
    requires Exec(links, evs) == Some(s) && Enabled(s, ev)
    ensures evs' == evs + [ev] && s' == Apply(s, ev) && Exec(links, evs') == Some(s')
  {
    evs', s' := evs + [ev], Apply(s, ev);
    assert evs'[..|evs|] == evs;
  }

  /**
   Without it an ACK can go astray: two links draw the same conn ID, the second registration
   overwrites the first, and the ACK answering attempt 0 opens attempt 1's channel instead.
   */
  lemma CollidingIdsMisroute(id: uint32) returns (evs: seq<Event>, s: State)
    ensures Exec(2, evs) == Some(s)
    ensures At(s, 0, Waiting) && At(s, 1, Waiting) && s.attempts[0].link != s.attempts[1].link
    ensures s.attempts[0].id == id == s.attempts[1].id
    ensures var t := Apply(s, Ack(id)); t.attempts[0].acks == 0 && Enabled(t, SeeAck(1))
  {
    evs, s := OneWaiting(id);
    var first := s.attempts[0];
    evs, s := Extend(2, evs, s, Start(1));
    evs, s := Extend(2, evs, s, Admit(1));
    assert s == State([first, Attempt(1, 0, Admitted, 0)], [1, 1], [1, 0], map[id := 0]);
    evs, s := Extend(2, evs, s, AcquireStream(1));
    assert s == State([first, Attempt(1, 0, Streaming, 0)], [1, 1], [1, 1], map[id := 0]);
    evs, s := Extend(2, evs, s, Register(1, id));
  }

  lemma OneWaiting(id: uint32) returns (evs: seq<Event>, s: State)
    ensures Exec(2, evs) == Some(s)
    ensures s == State([Attempt(0, id, Waiting, 0)], [1, 0], [1, 0], map[id := 0])
  {
    evs, s := [], Init(2);
    evs, s := Extend(2, evs, s, Start(0));
    evs, s := Extend(2, evs, s, Admit(0));
    assert s == State([Attempt(0, 0, Admitted, 0)], [1, 0], [0, 0], map[]);
    evs, s := Extend(2, evs, s, AcquireStream(0));
    assert s == State([Attempt(0, 0, Streaming, 0)], [1, 0], [1, 0], map[]);
    evs, s := Extend(2, evs, s, Register(0, id));
  }
}
