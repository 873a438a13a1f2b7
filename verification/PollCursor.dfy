/**
 The offset cursor over a pushed update stream: AccountAPI.push and GetUpdates
 (telegram/account.go) under the poll loop of Poller.Run (telegram/poller.go).
 */
module PollCursor {
  import opened Bytes
  import Naming

  /** An update with its ID and the channel post it carries, if any. */
  datatype Update = Update(id: nat, post: Option<Naming.Post>)

  /** GetUpdates: what is at or past the offset, in arrival order. */
  function Ready(inbox: seq<Update>, offset: nat): seq<Update> {
    if inbox == [] then []
    else Ready(inbox[..|inbox| - 1], offset) +
         (if inbox[|inbox| - 1].id >= offset then [inbox[|inbox| - 1]] else [])
  }

  function Advance(offset: nat, u: Update): nat {
    if u.id >= offset then u.id + 1 else offset
  }

  class Inbox {
    var inbox: seq<Update>

    constructor () ensures inbox == [] { inbox := []; }

    method Push(u: Update)
      modifies this
      ensures inbox == old(inbox) + [u]
    {
      inbox := inbox + [u];
    }

    /** One round of GetUpdates: the inbox keeps only what it returns. */
    method Collect(offset: nat) returns (ready: seq<Update>)
      modifies this
      ensures ready == Ready(old(inbox), offset) && inbox == ready
    {
      ready := [];
      for i := 0 to |inbox|
        invariant ready == Ready(inbox[..i], offset)
        invariant inbox == old(inbox)
      {
        assert inbox[..i + 1][..i] == inbox[..i];
        if inbox[i].id >= offset {
          ready := ready + [inbox[i]];
        }
      }
      assert inbox[..|inbox|] == inbox;
      inbox := ready;
    }
  }

  /** `batch` is what the last poll returned and is still to be looped over; `mark`, `pushed`,
      `processed` are history: all pushes, how many were in before the last poll, all handled. */
  datatype State = State(inbox: seq<Update>, offset: nat, batch: seq<Update>,
                         pushed: seq<Update>, mark: nat, processed: seq<Update>)

  datatype Event = Push(u: Update) | Poll | Process

  const INIT := State([], 0, [], [], 0, [])

  predicate Enabled(s: State, ev: Event) {
    match ev
    case Push(_) => true
    case Poll => s.batch == []
    case Process => s.batch != []
  }

  function Apply(s: State, ev: Event): State
    requires Enabled(s, ev)
  {
    match ev
    case Push(u) => s.(inbox := s.inbox + [u], pushed := s.pushed + [u])
    case Poll =>
      var ready := Ready(s.inbox, s.offset);
      s.(inbox := ready, batch := ready, mark := |s.pushed|)
    case Process =>
      s.(offset := Advance(s.offset, s.batch[0]), batch := s.batch[1..], processed := s.processed + [s.batch[0]])
  }

  function Exec(evs: seq<Event>): Option<State> {
    if evs == [] then Some(INIT)
    else match Exec(evs[..|evs| - 1])
      case None => None
      case Some(p) => if Enabled(p, evs[|evs| - 1]) then Some(Apply(p, evs[|evs| - 1])) else None
  }

  ghost predicate DistinctIds(us: seq<Update>) {
    forall i, j :: 0 <= i < j < |us| ==> us[i].id != us[j].id
  }

  ghost predicate IncreasingIds(us: seq<Update>) {
    forall i, j :: 0 <= i < j < |us| ==> us[i].id < us[j].id
  }

  ghost predicate AllBelow(us: seq<Update>, n: nat) {
    forall i :: 0 <= i < |us| ==> us[i].id < n
  }

  ghost predicate AllFrom(us: seq<Update>, n: nat) {
    forall i :: 0 <= i < |us| ==> us[i].id >= n
  }

  /** Every update of `a` is one of `b`. */
  ghost predicate Among(a: seq<Update>, b: seq<Update>) {
    forall i :: 0 <= i < |a| ==> a[i] in b
  }

  lemma {:induction false} ReadyMembers(inbox: seq<Update>, offset: nat, u: Update)
    ensures u in Ready(inbox, offset) <==> u in inbox && u.id >= offset
  {
    if inbox != [] {
      var n := |inbox| - 1;
      ReadyMembers(inbox[..n], offset, u);
      assert inbox == inbox[..n] + [inbox[n]];
    }
  }

  lemma {:induction false} ReadyDistinct(inbox: seq<Update>, offset: nat)
    requires DistinctIds(inbox)
    ensures DistinctIds(Ready(inbox, offset))
  {
    if inbox != [] {
      var n := |inbox| - 1;
      ReadyDistinct(inbox[..n], offset);
      var r := Ready(inbox[..n], offset);
      forall i | 0 <= i < |r| ensures r[i].id != inbox[n].id {
        ReadyMembers(inbox[..n], offset, r[i]);
        assert r[i] in r;
        var j :| 0 <= j < n && inbox[j] == r[i];
      }
    }
  }

  // ---------------------------------------------------------------- never twice

  /** With distinct IDs pushed, nothing handled or about to be handled comes up again. */
  ghost predicate Once(s: State) {
    && DistinctIds(s.inbox) && Among(s.inbox, s.pushed)
    && DistinctIds(s.processed + s.batch)
    && AllBelow(s.processed, s.offset)
    && Among(s.processed, s.pushed) && Among(s.batch, s.pushed)
  }

  lemma ReadyAmong(s: State)
    requires Among(s.inbox, s.pushed)
    ensures Among(Ready(s.inbox, s.offset), s.pushed) && AllFrom(Ready(s.inbox, s.offset), s.offset)
  {
    var r := Ready(s.inbox, s.offset);
    forall i | 0 <= i < |r| ensures r[i] in s.pushed && r[i].id >= s.offset {
      ReadyMembers(s.inbox, s.offset, r[i]);
      assert r[i] in r;
      var j :| 0 <= j < |s.inbox| && s.inbox[j] == r[i];
    }
  }

  lemma PollOnce(s: State)
    requires Once(s) && Enabled(s, Poll)
    ensures Once(Apply(s, Poll))
  {
    var r := Ready(s.inbox, s.offset);
    ReadyAmong(s);
    ReadyDistinct(s.inbox, s.offset);
    assert s.processed + s.batch == s.processed;
    forall i, j | 0 <= i < j < |s.processed + r| ensures (s.processed + r)[i].id != (s.processed + r)[j].id {}
  }

  lemma PushOnce(s: State, u: Update)
    requires Once(s) && DistinctIds(s.pushed + [u])
    ensures Once(Apply(s, Push(u)))
  {
    var more := s.pushed + [u];
    forall i | 0 <= i < |s.inbox| ensures s.inbox[i].id != u.id {
      assert s.inbox[i] in s.pushed;
      var j :| 0 <= j < |s.pushed| && s.pushed[j] == s.inbox[i];
      assert more[j].id != more[|s.pushed|].id;
    }
    forall x | x in s.pushed ensures x in more {}
    assert u == more[|s.pushed|];
  }

  lemma ProcessOnce(s: State)
    requires Once(s) && Enabled(s, Process)
    ensures Once(Apply(s, Process))
  {
    assert s.processed + s.batch == (s.processed + [s.batch[0]]) + s.batch[1..];
  }

  lemma DistinctPrefix(us: seq<Update>, n: nat)
    requires n <= |us| && DistinctIds(us)
    ensures DistinctIds(us[..n])
  {}

  lemma {:induction false} ReachOnce(evs: seq<Event>, s: State)
    requires Exec(evs) == Some(s) && DistinctIds(s.pushed)
    ensures Once(s)
  {
    if evs != [] {
      var ev := evs[|evs| - 1];
      var p := Exec(evs[..|evs| - 1]).value;
      assert ev.Push? ==> p.pushed == s.pushed[..|p.pushed|];
      assert DistinctIds(p.pushed);
      ReachOnce(evs[..|evs| - 1], p);
      match ev
      case Push(u) => PushOnce(p, u);
      case Poll => PollOnce(p);
      case Process => ProcessOnce(p);
    }
  }

  /** No update is processed twice, and what is processed was pushed. */
  lemma NeverProcessedTwice(evs: seq<Event>, s: State)
    requires Exec(evs) == Some(s) && DistinctIds(s.pushed)
    ensures DistinctIds(s.processed) && Among(s.processed, s.pushed)
  {
    ReachOnce(evs, s);
    DistinctPrefix(s.processed + s.batch, |s.processed|);
    assert (s.processed + s.batch)[..|s.processed|] == s.processed;
  }

  /** The offset never decreases: at no later point of a run is it lower than after k events. */
  lemma {:induction false} OffsetNeverDecreases(evs: seq<Event>, k: nat, p: State, s: State)
    requires k <= |evs| && Exec(evs[..k]) == Some(p) && Exec(evs) == Some(s)
    ensures p.offset <= s.offset
    decreases |evs|
  {
    if k < |evs| {
      var n := |evs| - 1;
      assert evs[..n][..k] == evs[..k];
      OffsetNeverDecreases(evs[..n], k, p, Exec(evs[..n]).value);
    } else {
      assert evs[..k] == evs;
    }
  }

  // ---------------------------------------------------------------- nothing lost, in order

  /** The offset stands just past the last update of `us`. */
  ghost predicate JustPast(us: seq<Update>, offset: nat) {
    if us == [] then offset == 0 else offset == us[|us| - 1].id + 1
  }

  /** With IDs pushed in increasing order: the handled, the waiting and the new make up the pushes. */
  ghost predicate InSequence(s: State) {
    && s.mark <= |s.pushed| && IncreasingIds(s.pushed)
    && s.processed + s.batch == s.pushed[..s.mark]
    && JustPast(s.processed, s.offset)
    && |s.pushed| - s.mark <= |s.inbox|
    && s.inbox[|s.inbox| - (|s.pushed| - s.mark)..] == s.pushed[s.mark..]
    && Among(s.inbox[..|s.inbox| - (|s.pushed| - s.mark)], s.pushed[..s.mark])
  }

  lemma {:induction false} ReadySplits(stale: seq<Update>, newer: seq<Update>, offset: nat)
    requires AllBelow(stale, offset) && AllFrom(newer, offset)
    ensures Ready(stale + newer, offset) == newer
  {
    var all := stale + newer;
    if newer == [] {
      assert all == stale;
      ReadyNone(stale, offset);
    } else {
      var n := |newer| - 1;
      assert all[..|all| - 1] == stale + newer[..n];
      ReadySplits(stale, newer[..n], offset);
      assert newer == newer[..n] + [newer[n]];
    }
  }

  lemma {:induction false} ReadyNone(stale: seq<Update>, offset: nat)
    requires AllBelow(stale, offset)
    ensures Ready(stale, offset) == []
  {
    if stale != [] {
      ReadyNone(stale[..|stale| - 1], offset);
    }
  }

  lemma StaleBelow(stale: seq<Update>, done: seq<Update>, offset: nat)
    requires Among(stale, done) && IncreasingIds(done) && JustPast(done, offset)
    ensures AllBelow(stale, offset)
  {
    forall i | 0 <= i < |stale| ensures stale[i].id < offset {
      assert stale[i] in done;
      var j :| 0 <= j < |done| && done[j] == stale[i];
      assert j < |done| - 1 ==> done[j].id < done[|done| - 1].id;
    }
  }

  lemma NewerFrom(pushed: seq<Update>, mark: nat, offset: nat)
    requires mark <= |pushed| && IncreasingIds(pushed) && JustPast(pushed[..mark], offset)
    ensures AllFrom(pushed[mark..], offset)
  {}

  lemma {:induction false} AmongSelf(us: seq<Update>, lo: nat)
    requires lo <= |us|
    ensures Among(us[lo..], us)
  {}

  lemma PollInSequence(s: State)
    requires InSequence(s) && Enabled(s, Poll)
    ensures InSequence(Apply(s, Poll))
  {
    var k := |s.inbox| - (|s.pushed| - s.mark);
    var stale, newer := s.inbox[..k], s.pushed[s.mark..];
    assert s.processed == s.pushed[..s.mark];
    StaleBelow(stale, s.pushed[..s.mark], s.offset);
    NewerFrom(s.pushed, s.mark, s.offset);
    assert s.inbox == stale + newer;
    ReadySplits(stale, newer, s.offset);
    PolledInSequence(s, Apply(s, Poll));
  }

  lemma PolledInSequence(s: State, t: State)
    requires s.mark <= |s.pushed| && IncreasingIds(s.pushed) && s.processed == s.pushed[..s.mark]
      && JustPast(s.processed, s.offset)
    requires t == s.(inbox := s.pushed[s.mark..], batch := s.pushed[s.mark..], mark := |s.pushed|)
    ensures InSequence(t)
  {
    assert t.processed + t.batch == s.pushed;
    assert t.pushed[..t.mark] == s.pushed;
    AmongSelf(s.pushed, s.mark);
    assert t.inbox[..|t.inbox|] == t.inbox;
  }

  lemma PushInSequence(s: State, u: Update)
    requires InSequence(s) && IncreasingIds(s.pushed + [u])
    ensures InSequence(Apply(s, Push(u)))
  {
    var t := Apply(s, Push(u));
    var k := |s.inbox| - (|s.pushed| - s.mark);
    assert t.inbox[..k] == s.inbox[..k];
    assert t.inbox[k..] == s.inbox[k..] + [u];
    assert t.pushed[t.mark..] == s.pushed[s.mark..] + [u];
    assert t.pushed[..t.mark] == s.pushed[..s.mark];
  }

  lemma ProcessInSequence(s: State)
    requires InSequence(s) && Enabled(s, Process)
    ensures InSequence(Apply(s, Process))
  {
    var t := Apply(s, Process);
    var n := |s.processed|;
    assert t.processed + t.batch == s.processed + s.batch;
    assert s.pushed[..s.mark][n] == s.batch[0];
    assert n > 0 ==> s.pushed[..s.mark][n - 1] == s.processed[n - 1];
    assert s.batch[0].id >= s.offset;
  }

  lemma {:induction false} ReachInSequence(evs: seq<Event>, s: State)
    requires Exec(evs) == Some(s) && IncreasingIds(s.pushed)
    ensures InSequence(s)
  {
    if evs != [] {
      var ev := evs[|evs| - 1];
      var p := Exec(evs[..|evs| - 1]).value;
      assert ev.Push? ==> p.pushed == s.pushed[..|p.pushed|];
      assert IncreasingIds(p.pushed);
      ReachInSequence(evs[..|evs| - 1], p);
      match ev
      case Push(u) => PushInSequence(p, u);
      case Poll => PollInSequence(p);
      case Process => ProcessInSequence(p);
    }
  }

  /**
   With IDs pushed in increasing order, the updates handled are always a prefix of the pushes;
   once a poll has seen everything and been worked off, they are all of them, in order.
   */
  lemma DrainedPollIsComplete(evs: seq<Event>, s: State)
    requires Exec(evs) == Some(s) && IncreasingIds(s.pushed)
    ensures s.processed <= s.pushed
    ensures s.batch == [] && s.mark == |s.pushed| ==> s.processed == s.pushed
  {
    ReachInSequence(evs, s);
    assert s.processed <= s.processed + s.batch;
    assert s.pushed[..|s.pushed|] == s.pushed;
  }

  // ---------------------------------------------------------------- exactly what is processed

  /** No poll between event k and the end of the run. */
  ghost predicate NoPollSince(evs: seq<Event>, k: nat) {
    forall m :: k < m < |evs| ==> !evs[m].Poll?
  }

  lemma DistinctBefore(s: State, ev: Event)
    requires Enabled(s, ev) && DistinctIds(Apply(s, ev).pushed)
    ensures DistinctIds(s.pushed)
  {
    var more := Apply(s, ev).pushed;
    assert more[..|s.pushed|] == s.pushed;
    DistinctPrefix(more, |s.pushed|);
  }

  /** Until the next poll a pushed update waits in the inbox and nowhere else. */
  lemma {:induction false} WaitsForPoll(evs: seq<Event>, s: State, k: nat, u: Update)
    requires Exec(evs) == Some(s) && DistinctIds(s.pushed)
    requires k < |evs| && evs[k] == Push(u) && NoPollSince(evs, k)
    ensures u in s.pushed && u in s.inbox && u !in s.processed && u !in s.batch
  {
    var n := |evs| - 1;
    var p := Exec(evs[..n]).value;
    DistinctBefore(p, evs[n]);
    if k < n {
      WaitsForPoll(evs[..n], p, k, u);
      assert !evs[n].Poll?;
      PassStep(p, evs[n], u);
    } else {
      ReachOnce(evs[..n], p);
      NewInPushed(p, u);
    }
  }

  lemma NewInPushed(p: State, u: Update)
    requires Once(p) && DistinctIds(p.pushed + [u])
    ensures u !in p.pushed && u !in p.processed && u !in p.batch
  {
    var more := p.pushed + [u];
    forall i | 0 <= i < |p.pushed| ensures p.pushed[i] != u {
      assert more[i].id != more[|p.pushed|].id;
    }
  }

  lemma PassStep(s: State, ev: Event, u: Update)
    requires Enabled(s, ev) && !ev.Poll? && u in s.pushed && u in s.inbox && u !in s.processed && u !in s.batch
    ensures var t := Apply(s, ev); u in t.pushed && u in t.inbox && u !in t.processed && u !in t.batch
  {
    if ev.Process? {
      assert s.batch[0] in s.batch;
    }
  }

  /** What the poll returned is handled or still to be handled; what it dropped never comes back. */
  ghost predicate Settled(s: State, u: Update, accepted: bool) {
    && u in s.pushed
    && (accepted ==> u in s.processed || u in s.batch)
    && (!accepted ==> u !in s.processed && u !in s.batch && u !in s.inbox)
  }

  lemma SettledStep(s: State, ev: Event, u: Update, accepted: bool)
    requires Enabled(s, ev) && Settled(s, u, accepted) && DistinctIds(Apply(s, ev).pushed)
    ensures Settled(Apply(s, ev), u, accepted)
  {
    match ev
    case Push(v) =>
      var more := s.pushed + [v];
      var i :| 0 <= i < |s.pushed| && s.pushed[i] == u;
      assert more[i].id != more[|s.pushed|].id;
      assert more[i] == u;
    case Poll => ReadyMembers(s.inbox, s.offset, u);
    case Process =>
      assert s.batch == [s.batch[0]] + s.batch[1..];
  }

  lemma {:induction false} SettledAfterPoll(evs: seq<Event>, s: State, j: nat, p: State, u: Update)
    requires Exec(evs) == Some(s) && DistinctIds(s.pushed)
    requires j < |evs| && evs[j] == Poll && Exec(evs[..j]) == Some(p)
    requires u in p.pushed && u in p.inbox && u !in p.processed
    ensures Settled(s, u, u.id >= p.offset)
  {
    var n := |evs| - 1;
    var q := Exec(evs[..n]).value;
    if j < n {
      assert evs[..n][..j] == evs[..j];
      DistinctBefore(q, evs[n]);
      SettledAfterPoll(evs[..n], q, j, p, u);
      SettledStep(q, evs[n], u, u.id >= p.offset);
    } else {
      PollSettles(p, u);
    }
  }

  lemma PollSettles(p: State, u: Update)
    requires Enabled(p, Poll) && u in p.pushed && u in p.inbox && u !in p.processed
    ensures Settled(Apply(p, Poll), u, u.id >= p.offset)
  {
    ReadyMembers(p.inbox, p.offset, u);
  }

  /**
   Exactly which updates are processed, with distinct IDs in any order: one pushed at event k,
   whose next poll is event j from state p, has been processed at a drained state if and only if
   its ID was not below the offset at that poll.
   */
  lemma ProcessedExact(evs: seq<Event>, s: State, k: nat, u: Update, j: nat, p: State)
    requires Exec(evs) == Some(s) && DistinctIds(s.pushed) && s.batch == []
    requires k < j < |evs| && evs[k] == Push(u) && evs[j] == Poll && NoPollSince(evs[..j], k)
    requires Exec(evs[..j]) == Some(p)
    ensures u in s.processed <==> u.id >= p.offset
  {
    PrefixDistinct(evs, s, j, p);
    WaitsForPoll(evs[..j], p, k, u);
    SettledAfterPoll(evs, s, j, p, u);
  }

  lemma {:induction false} PrefixDistinct(evs: seq<Event>, s: State, j: nat, p: State)
    requires Exec(evs) == Some(s) && DistinctIds(s.pushed) && j <= |evs| && Exec(evs[..j]) == Some(p)
    ensures DistinctIds(p.pushed)
  {
    if j < |evs| {
      var n := |evs| - 1;
      var q := Exec(evs[..n]).value;
      assert evs[..n][..j] == evs[..j];
      DistinctBefore(q, evs[n]);
      PrefixDistinct(evs[..n], q, j, p);
    } else {
      assert evs[..j] == evs;
    }
  }

  /**
   The order matters: an update pushed with an ID below the offset is dropped by the next poll
   and never handled.
   */
  lemma LateIdIsLost(hi: nat, lo: nat) returns (evs: seq<Event>, s: State)
    requires lo < hi
    ensures Exec(evs) == Some(s) && s.batch == [] && s.mark == |s.pushed|
    ensures s.pushed == [Update(hi, None), Update(lo, None)] && s.processed == [Update(hi, None)] && s.inbox == []
  {
    evs, s := [], INIT;
    evs, s := Extend(evs, s, Push(Update(hi, None)));
    assert Ready([Update(hi, None)], 0) == [Update(hi, None)] by { assert [Update(hi, None)][..0] == []; }
    evs, s := Extend(evs, s, Poll);
    evs, s := Extend(evs, s, Process);
    evs, s := Extend(evs, s, Push(Update(lo, None)));
    ReadyNone([Update(hi, None), Update(lo, None)], hi + 1);
    assert s.inbox == [Update(hi, None), Update(lo, None)];
    evs, s := Extend(evs, s, Poll);
  }

  lemma Extend(evs: seq<Event>, s: State, ev: Event) returns (evs': seq<Event>, s': State)
    requires Exec(evs) == Some(s) && Enabled(s, ev)
    ensures evs' == evs + [ev] && s' == Apply(s, ev) && Exec(evs') == Some(s')
  {
    evs', s' := evs + [ev], Apply(s, ev);
    assert evs'[..|evs|] == evs;
  }
}
