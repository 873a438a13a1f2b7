/**
 The DNS cache of tunnel/dnscache.go in front of a resolver. A resolve call is five steps: read
 the clock, read the map, get the resolver's answer, read the clock again, store the answer;
 calls interleave freely and may be held up between any two steps. The resolver's answers are
 kept as a log of what it said, when, and what the clock showed when the call read it next.
 */
module DnsCache {
  import opened Bytes

  type Time = int
  type Host = string

  const SECOND: int := 1_000_000_000
  const TTL := 300 * SECOND
  const NEG_TTL := 5 * SECOND
  const MAX_ENTRIES := 2048

  /** The resolver's answer; an error and an empty list are both a negative answer. */
  datatype Answer = Negative | Addrs(addrs: seq<string>)

  datatype Entry = Entry(answer: Answer, expires: Time)

  /** The resolver's own answer, given at `said`; the call read the clock at `at`. */
  datatype Lookup = Lookup(host: Host, said: Time, at: Time, raw: Answer)

  /** Where a resolve call is; an answered one keeps its last clock reading and when it returned. */
  datatype Call =
    | Started(host: Host, now: Time)
    | Missed(host: Host)
    | Told(host: Host, said: Time, raw: Answer)
    | LookedUp(host: Host, at: Time, raw: Answer)
    | Answered(host: Host, read: Time, ret: Time, answer: Answer)

  datatype State = State(clock: Time, entries: map<Host, Entry>, calls: seq<Call>, log: seq<Lookup>)

  datatype Event =
    | Tick(t: Time)
    | Begin(host: Host) | ReadMap(i: nat) | Ask(i: nat, answer: Answer) | Stamp(i: nat) | Store(i: nat)

  function Init(clock: Time): State { State(clock, map[], [], []) }

  function TtlOf(a: Answer): int { if a.Negative? then NEG_TTL else TTL }

  /** len(addrs) == 0 counts as a failed lookup. */
  function Normalised(a: Answer): Answer {
    if a.Addrs? && a.addrs == [] then Negative else a
  }

  /** What a caller may be told when the resolver said `raw`: the addresses it gave, or failure if it gave none. */
  ghost predicate Tells(raw: Answer, answer: Answer) {
    if raw.Addrs? && raw.addrs != [] then answer == raw else answer == Negative
  }

  predicate Enabled(s: State, ev: Event) {
    match ev
    case Tick(t) => s.clock <= t
    case Begin(_) => true
    case ReadMap(i) => i < |s.calls| && s.calls[i].Started?
    case Ask(i, _) => i < |s.calls| && s.calls[i].Missed?
    case Stamp(i) => i < |s.calls| && s.calls[i].Told?
    case Store(i) => i < |s.calls| && s.calls[i].LookedUp?
  }

  predicate Hit(s: State, c: Call) requires c.Started? {
    c.host in s.entries && c.now < s.entries[c.host].expires
  }

  /** A full map is dropped whole before the new entry goes in. */
  function Stored(m: map<Host, Entry>, host: Host, at: Time, answer: Answer): map<Host, Entry> {
    (if |m| >= MAX_ENTRIES then map[] else m)[host := Entry(answer, at + TtlOf(answer))]
  }

  function Apply(s: State, ev: Event): State
    requires Enabled(s, ev)
  {
    match ev
    case Tick(t) => s.(clock := t)
    case Begin(host) => s.(calls := s.calls + [Started(host, s.clock)])
    case ReadMap(i) =>
      var c := s.calls[i];
      s.(calls := s.calls[i := if Hit(s, c) then Answered(c.host, c.now, s.clock, s.entries[c.host].answer)
                               else Missed(c.host)])
    case Ask(i, answer) => s.(calls := s.calls[i := Told(s.calls[i].host, s.clock, answer)])
    case Stamp(i) =>
      var c := s.calls[i];
      s.(calls := s.calls[i := LookedUp(c.host, s.clock, c.raw)],
         log := s.log + [Lookup(c.host, c.said, s.clock, c.raw)])
    case Store(i) =>
      var c, answer := s.calls[i], Normalised(s.calls[i].raw);
      s.(entries := Stored(s.entries, c.host, c.at, answer),
         calls := s.calls[i := Answered(c.host, c.at, s.clock, answer)])
  }

  function Exec(clock: Time, evs: seq<Event>): Option<State> {
    if evs == [] then Some(Init(clock))
    else match Exec(clock, evs[..|evs| - 1])
      case None => None
      case Some(p) => if Enabled(p, evs[|evs| - 1]) then Some(Apply(p, evs[|evs| - 1])) else None
  }

  // ---------------------------------------------------------------- the invariant

  /** A lookup of this host gave this answer, and was stamped after `after` and no later than `until`. */
  ghost predicate Stamped(log: seq<Lookup>, host: Host, answer: Answer, after: Time, until: Time) {
    exists k :: 0 <= k < |log| && log[k].host == host && Tells(log[k].raw, answer) && after < log[k].at <= until
  }

  ghost predicate EntryBacked(log: seq<Lookup>, host: Host, e: Entry, clock: Time) {
    exists k :: 0 <= k < |log| && log[k].host == host && Tells(log[k].raw, e.answer)
                && log[k].at + TtlOf(e.answer) == e.expires && log[k].at <= clock
  }

  ghost predicate CallBacked(s: State, c: Call) {
    match c
    case Started(_, now) => now <= s.clock
    case Missed(_) => true
    case Told(_, said, _) => said <= s.clock
    case LookedUp(h, at, a) =>
      at <= s.clock && exists k :: 0 <= k < |s.log| && s.log[k].host == h && s.log[k].at == at && s.log[k].raw == a
    case Answered(h, read, ret, a) => read <= ret <= s.clock && Stamped(s.log, h, a, read - TtlOf(a), ret)
  }

  ghost predicate Inv(s: State) {
    && |s.entries| <= MAX_ENTRIES
    && (forall h :: h in s.entries ==> EntryBacked(s.log, h, s.entries[h], s.clock))
    && (forall i :: 0 <= i < |s.calls| ==> CallBacked(s, s.calls[i]))
    && (forall k :: 0 <= k < |s.log| ==> s.log[k].said <= s.log[k].at)
  }

  lemma BackedGrows(s: State, t: State, c: Call)
    requires CallBacked(s, c) && s.clock <= t.clock && s.log <= t.log
    ensures CallBacked(t, c)
  {
    match c
    case LookedUp(h, at, a) =>
      var k :| 0 <= k < |s.log| && s.log[k].host == h && s.log[k].at == at && s.log[k].raw == a;
      assert t.log[k] == s.log[k];
    case Answered(h, read, ret, a) =>
      var k :| 0 <= k < |s.log| && s.log[k].host == h && Tells(s.log[k].raw, a) && read - TtlOf(a) < s.log[k].at <= ret;
      assert t.log[k] == s.log[k];
    case _ =>
  }

  lemma EntryGrows(s: State, t: State, h: Host, e: Entry)
    requires EntryBacked(s.log, h, e, s.clock) && s.clock <= t.clock && s.log <= t.log
    ensures EntryBacked(t.log, h, e, t.clock)
  {
    var k :| 0 <= k < |s.log| && s.log[k].host == h && Tells(s.log[k].raw, e.answer)
             && s.log[k].at + TtlOf(e.answer) == e.expires && s.log[k].at <= s.clock;
    assert t.log[k] == s.log[k];
  }

  lemma StoredSize(m: map<Host, Entry>, h: Host, e: Entry)
    requires |m| < MAX_ENTRIES
    ensures |m[h := e]| <= MAX_ENTRIES
  {
    assert m[h := e].Keys == m.Keys + {h};
  }

  /** The call that this event moves is backed afterwards. */
  lemma MovedCall(s: State, ev: Event, i: nat)
    requires Inv(s) && Enabled(s, ev) && i < |s.calls|
    requires ev == ReadMap(i) || (ev.Ask? && ev.i == i) || ev == Stamp(i) || ev == Store(i)
    ensures CallBacked(Apply(s, ev), Apply(s, ev).calls[i])
  {
    var t, c := Apply(s, ev), s.calls[i];
    assert CallBacked(s, c);
    if ev.ReadMap? && Hit(s, c) {
      var e := s.entries[c.host];
      var k :| 0 <= k < |s.log| && s.log[k].host == c.host && Tells(s.log[k].raw, e.answer)
               && s.log[k].at + TtlOf(e.answer) == e.expires && s.log[k].at <= s.clock;
      assert Stamped(t.log, c.host, e.answer, c.now - TtlOf(e.answer), s.clock);
    } else if ev.Stamp? {
      assert t.log[|s.log|] == Lookup(c.host, c.said, s.clock, c.raw);
    } else if ev.Store? {
      var k :| 0 <= k < |s.log| && s.log[k].host == c.host && s.log[k].at == c.at && s.log[k].raw == c.raw;
      var answer := Normalised(c.raw);
      assert Tells(s.log[k].raw, answer) && c.at - TtlOf(answer) < s.log[k].at <= s.clock;
    }
  }

  lemma EntriesStep(s: State, ev: Event)
    requires Inv(s) && Enabled(s, ev)
    ensures var t := Apply(s, ev);
      |t.entries| <= MAX_ENTRIES && forall h :: h in t.entries ==> EntryBacked(t.log, h, t.entries[h], t.clock)
  {
    var t := Apply(s, ev);
    if ev.Store? {
      var c := s.calls[ev.i];
      assert CallBacked(s, c);
      StoredSize(if |s.entries| >= MAX_ENTRIES then map[] else s.entries, c.host, t.entries[c.host]);
      var k :| 0 <= k < |s.log| && s.log[k].host == c.host && s.log[k].at == c.at && s.log[k].raw == c.raw;
      assert EntryBacked(t.log, c.host, t.entries[c.host], t.clock);
    }
    forall h | h in t.entries && !(ev.Store? && h == s.calls[ev.i].host)
      ensures EntryBacked(t.log, h, t.entries[h], t.clock)
    {
      EntryGrows(s, t, h, s.entries[h]);
    }
  }

  lemma StepInv(s: State, ev: Event)
    requires Inv(s) && Enabled(s, ev)
    ensures Inv(Apply(s, ev))
  {
    var t := Apply(s, ev);
    EntriesStep(s, ev);
    if ev.Stamp? {
      assert CallBacked(s, s.calls[ev.i]);
    }
    forall i | 0 <= i < |t.calls| ensures CallBacked(t, t.calls[i]) {
      if i < |s.calls| && t.calls[i] == s.calls[i] {
        BackedGrows(s, t, s.calls[i]);
      } else if i < |s.calls| {
        MovedCall(s, ev, i);
      }
    }
  }

  lemma {:induction false} ReachInv(clock: Time, evs: seq<Event>, s: State)
    requires Exec(clock, evs) == Some(s)
    ensures Inv(s)
  {
    if evs != [] {
      var p := Exec(clock, evs[..|evs| - 1]).value;
      ReachInv(clock, evs[..|evs| - 1], p);
      StepInv(p, evs[|evs| - 1]);
    }
  }

  // ---------------------------------------------------------------- what the cache promises

  /**
   Every lookup was stamped within d1 of the resolver's answer; every call returned within d2 of its
   last clock reading.
   */
  ghost predicate Prompt(s: State, d1: nat, d2: nat) {
    && (forall k :: 0 <= k < |s.log| ==> s.log[k].at - s.log[k].said <= d1)
    && (forall i :: 0 <= i < |s.calls| && s.calls[i].Answered? ==> s.calls[i].ret - s.calls[i].read <= d2)
  }

  /** The resolver gave this answer for this host, at a time after `after` and no later than `until`. */
  ghost predicate Said(log: seq<Lookup>, host: Host, answer: Answer, after: Time, until: Time) {
    exists k :: 0 <= k < |log| && log[k].host == host && Tells(log[k].raw, answer) && after < log[k].said <= until
  }

  /**
   The cache refines the resolver, over any interleaving: the answer of a call that last read the
   clock at `read` is one the resolver gave for that host, by a lookup stamped later than
   read - TTL (300 s for addresses, 5 s for failures). So if lookups are stamped within d1 of the
   answer and calls return within d2 of the reading, it was given less than TTL + d1 + d2 before
   the return. The map stays within 2048 entries.
   */
  lemma CacheRefinesResolver(clock: Time, evs: seq<Event>, s: State, i: nat, d1: nat, d2: nat)
    requires Exec(clock, evs) == Some(s)
    ensures |s.entries| <= 2048
    ensures i < |s.calls| && s.calls[i].Answered? ==>
      var Answered(host, read, ret, answer) := s.calls[i];
      var ttl := if answer.Negative? then 5_000_000_000 else 300_000_000_000;
      && read <= ret && Stamped(s.log, host, answer, read - ttl, ret)
      && (Prompt(s, d1, d2) ==> Said(s.log, host, answer, ret - ttl - d1 - d2, ret))
  {
    ReachInv(clock, evs, s);
    if i < |s.calls| && s.calls[i].Answered? {
      var c := s.calls[i];
      assert CallBacked(s, c);
      var k :| 0 <= k < |s.log| && s.log[k].host == c.host && Tells(s.log[k].raw, c.answer)
               && c.read - TtlOf(c.answer) < s.log[k].at <= c.ret;
      assert s.log[k].said <= s.log[k].at;
    }
  }

  /** The lookup is one the run made: it carries what the resolver answered to a call for that host, and when. */
  ghost predicate Made(clock: Time, evs: seq<Event>, l: Lookup) {
    exists j, p :: 0 <= j < |evs| && Exec(clock, evs[..j]) == Some(p) && AnsweredAt(p, evs[j], l.host, l.said, l.raw)
  }

  predicate AnsweredAt(p: State, ev: Event, host: Host, said: Time, raw: Answer) {
    ev.Ask? && ev.i < |p.calls| && p.calls[ev.i].host == host && p.clock == said && ev.answer == raw
  }

  lemma MadeLater(clock: Time, evs: seq<Event>, ev: Event, l: Lookup)
    requires Made(clock, evs, l)
    ensures Made(clock, evs + [ev], l)
  {
    var j, p :| 0 <= j < |evs| && Exec(clock, evs[..j]) == Some(p) && AnsweredAt(p, evs[j], l.host, l.said, l.raw);
    assert (evs + [ev])[..j] == evs[..j] && (evs + [ev])[j] == evs[j];
  }

  /** Everything the log and the calls hold was really answered. */
  ghost predicate AllMade(clock: Time, evs: seq<Event>, s: State) {
    && (forall k :: 0 <= k < |s.log| ==> Made(clock, evs, s.log[k]))
    && (forall i :: 0 <= i < |s.calls| && s.calls[i].Told? ==>
         Made(clock, evs, Lookup(s.calls[i].host, s.calls[i].said, 0, s.calls[i].raw)))
  }

  lemma MadeAnyStamp(clock: Time, evs: seq<Event>, l: Lookup, at: Time)
    requires Made(clock, evs, l)
    ensures Made(clock, evs, l.(at := at))
  {
    var j, p :| 0 <= j < |evs| && Exec(clock, evs[..j]) == Some(p) && AnsweredAt(p, evs[j], l.host, l.said, l.raw);
    assert AnsweredAt(p, evs[j], l.(at := at).host, l.(at := at).said, l.(at := at).raw);
  }

  lemma AllMadeStep(clock: Time, evs: seq<Event>, s: State, ev: Event)
    requires Exec(clock, evs) == Some(s) && Enabled(s, ev) && AllMade(clock, evs, s)
    ensures AllMade(clock, evs + [ev], Apply(s, ev))
  {
    var t, all := Apply(s, ev), evs + [ev];
    forall k | 0 <= k < |t.log| ensures Made(clock, all, t.log[k]) {
      if k < |s.log| {
        MadeLater(clock, evs, ev, s.log[k]);
      } else {
        var c := s.calls[ev.i];
        MadeLater(clock, evs, ev, Lookup(c.host, c.said, 0, c.raw));
        MadeAnyStamp(clock, all, Lookup(c.host, c.said, 0, c.raw), s.clock);
      }
    }
    forall i | 0 <= i < |t.calls| && t.calls[i].Told?
      ensures Made(clock, all, Lookup(t.calls[i].host, t.calls[i].said, 0, t.calls[i].raw))
    {
      if i < |s.calls| && s.calls[i].Told? {
        MadeLater(clock, evs, ev, Lookup(s.calls[i].host, s.calls[i].said, 0, s.calls[i].raw));
      } else {
        assert all[..|evs|] == evs && all[|evs|] == ev;
        assert AnsweredAt(s, all[|evs|], t.calls[i].host, t.calls[i].said, t.calls[i].raw);
      }
    }
  }

  /** The log is the run's: every lookup in it carries what the resolver answered to a call for that host. */
  lemma {:induction false} LogIsRun(clock: Time, evs: seq<Event>, s: State)
    requires Exec(clock, evs) == Some(s)
    ensures AllMade(clock, evs, s)
  {
    if evs != [] {
      var n := |evs| - 1;
      var p := Exec(clock, evs[..n]).value;
      LogIsRun(clock, evs[..n], p);
      AllMadeStep(clock, evs[..n], p, evs[n]);
      assert evs[..n] + [evs[n]] == evs;
    }
  }

  /** The hosts asked for, in the order of the calls. */
  function Hosts(evs: seq<Event>): seq<Host> {
    if evs == [] then []
    else match evs[|evs| - 1]
      case Begin(host) => Hosts(evs[..|evs| - 1]) + [host]
      case _ => Hosts(evs[..|evs| - 1])
  }

  /** Each call goes on with the host it was begun for. */
  lemma {:induction false} CallsAreRun(clock: Time, evs: seq<Event>, s: State)
    requires Exec(clock, evs) == Some(s)
    ensures |s.calls| == |Hosts(evs)| && forall i :: 0 <= i < |s.calls| ==> s.calls[i].host == Hosts(evs)[i]
  {
    if evs != [] {
      var p := Exec(clock, evs[..|evs| - 1]).value;
      CallsAreRun(clock, evs[..|evs| - 1], p);
      CallsStep(p, evs[|evs| - 1]);
    }
  }

  lemma CallsStep(s: State, ev: Event)
    requires Enabled(s, ev)
    ensures var t := Apply(s, ev);
      && |t.calls| == |s.calls| + (if ev.Begin? then 1 else 0)
      && (forall i :: 0 <= i < |s.calls| ==> t.calls[i].host == s.calls[i].host)
      && (ev.Begin? ==> t.calls[|s.calls|].host == ev.host)
  {}

  lemma Extend(evs: seq<Event>, s: State, ev: Event) returns (evs': seq<Event>, s': State)
    requires Exec(0, evs) == Some(s) && Enabled(s, ev)
    ensures evs' == evs + [ev] && s' == Apply(s, ev) && Exec(0, evs') == Some(s')
  {
    evs', s' := evs + [ev], Apply(s, ev);
    assert evs'[..|evs|] == evs;
  }

  /** The first call: answered at time 0, stamped and stored d later. */
  lemma FirstAnswered(host: Host, answer: Answer, d: nat) returns (evs: seq<Event>, s: State)
    requires Normalised(answer) == answer
    ensures Exec(0, evs) == Some(s)
    ensures s == State(d, map[host := Entry(answer, d + TtlOf(answer))], [Answered(host, d, d, answer)],
      [Lookup(host, 0, d, answer)])
  {
    evs, s := [], Init(0);
    evs, s := Extend(evs, s, Begin(host));
    evs, s := Extend(evs, s, ReadMap(0));
    evs, s := Extend(evs, s, Ask(0, answer));
    assert s == State(0, map[], [Told(host, 0, answer)], []);
    evs, s := Extend(evs, s, Tick(d));
    evs, s := Extend(evs, s, Stamp(0));
    assert s == State(d, map[], [LookedUp(host, d, answer)], [Lookup(host, 0, d, answer)]);
    evs, s := Extend(evs, s, Store(0));
  }

  /**
   The bound is reached for all delays d1 and d2 and both kinds of answer: a run with these delays
   in which an answer is TTL + d1 + d2 - 1 old when the call returns.
   */
  lemma AgeBoundReached(host: Host, answer: Answer, d1: nat, d2: nat) returns (evs: seq<Event>, s: State)
    requires Normalised(answer) == answer
    ensures Exec(0, evs) == Some(s) && Prompt(s, d1, d2) && s.log == [Lookup(host, 0, d1, answer)] && |s.calls| == 2
    ensures s.calls[1] == Answered(host, d1 + TtlOf(answer) - 1, TtlOf(answer) + d1 + d2 - 1, answer)
  {
    evs, s := FirstAnswered(host, answer, d1);
    var now := d1 + TtlOf(answer) - 1;
    evs, s := Extend(evs, s, Tick(now));
    evs, s := Extend(evs, s, Begin(host));
    evs, s := Extend(evs, s, Tick(now + d2));
    evs, s := Extend(evs, s, ReadMap(1));
  }

  /** In every run with these delays, each answer was given less than its TTL before the return. */
  ghost predicate TtlKept(d1: nat, d2: nat) {
    forall evs, s, i :: Exec(0, evs) == Some(s) && Prompt(s, d1, d2) && 0 <= i < |s.calls| && s.calls[i].Answered? ==>
      Said(s.log, s.calls[i].host, s.calls[i].answer, s.calls[i].ret - TtlOf(s.calls[i].answer), s.calls[i].ret)
  }

  /** So the TTL counted to the return is kept if and only if there are no delays at all. */
  lemma TtlKeptExact(d1: nat, d2: nat)
    ensures TtlKept(d1, d2) <==> d1 == 0 && d2 == 0
  {
    if d1 == 0 && d2 == 0 {
      forall evs, s, i | Exec(0, evs) == Some(s) && Prompt(s, d1, d2) && 0 <= i < |s.calls| && s.calls[i].Answered?
        ensures Said(s.log, s.calls[i].host, s.calls[i].answer, s.calls[i].ret - TtlOf(s.calls[i].answer),
          s.calls[i].ret)
      {
        CacheRefinesResolver(0, evs, s, i, d1, d2);
      }
    } else {
      var evs, s := AgeBoundReached("", Negative, d1, d2);
      assert !Said(s.log, s.calls[1].host, s.calls[1].answer, s.calls[1].ret - TtlOf(Negative), s.calls[1].ret);
    }
  }

  // ---------------------------------------------------------------- the object, one call at a time

  /** At most 2048 entries, each the last answer remembered for its host, until its TTL is over. */
  ghost predicate Holds(m: map<Host, Entry>, last: map<Host, (Time, Answer)>) {
    && |m| <= MAX_ENTRIES
    && forall h :: h in m ==> h in last && m[h] == Entry(last[h].1, last[h].0 + TtlOf(last[h].1))
  }

  lemma StoredHolds(m: map<Host, Entry>, last: map<Host, (Time, Answer)>, host: Host, at: Time, answer: Answer)
    requires Holds(m, last)
    ensures Holds(Stored(m, host, at, answer), last[host := (at, answer)])
    ensures |m| < 2048 ==> Stored(m, host, at, answer).Keys == m.Keys + {host}
  {
    StoredSize(if |m| >= MAX_ENTRIES then map[] else m, host, Entry(answer, at + TtlOf(answer)));
  }

  class Cache {
    var entries: map<Host, Entry>
    /** History: per host the last answer remembered, and the clock reading it came with. */
    ghost var last: map<Host, (Time, Answer)>

    ghost predicate Valid() reads this { Holds(entries, last) }

    constructor ()
      ensures Valid() && entries == map[] && last == map[]
    {
      entries, last := map[], map[];
    }

    /** The read half of resolve: an answer it gives is the last remembered for the host and within its TTL. */
    method Find(host: Host, now: Time) returns (r: Option<Answer>)
      requires Valid()
      ensures r.Some? ==> host in last && r.value == last[host].1 && now < last[host].0 + TtlOf(r.value)
      ensures r.None? ==> host !in entries || now >= last[host].0 + TtlOf(last[host].1)
    {
      if host in entries {
        var entry := entries[host];
        if now < entry.expires { return Some(entry.answer); }
      }
      r := None;
    }

    /** A full map is dropped whole before the new entry goes in. */
    method Insert(host: Host, entry: Entry)
      modifies this`entries
      ensures entries == (if old(|entries|) >= MAX_ENTRIES then map[] else old(entries))[host := entry]
    {
      if |entries| >= MAX_ENTRIES {
        entries := map[];
      }
      entries := entries[host := entry];
    }

    /** The write half, as in the Store step; the other hosts keep their answers unless the map was full. */
    method Remember(host: Host, at: Time, answer: Answer)
      requires Valid()
      modifies this
      ensures Valid() && host in entries && last == old(last)[host := (at, answer)]
      ensures old(|entries|) < 2048 ==> entries.Keys == old(entries.Keys) + {host}
    {
      StoredHolds(entries, last, host, at, answer);
      Insert(host, if answer.Negative? then Entry(Negative, at + NEG_TTL) else Entry(answer, at + TTL));
      last := last[host := (at, answer)];
      assert entries == Stored(old(entries), host, at, answer);
    }
  }
}
