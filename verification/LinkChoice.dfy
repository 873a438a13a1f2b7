/**
 Link health, link choice and failover (pool/pool.go, handleSOCKS in tunnel/client.go).
 */
module LinkChoice {
  import opened Bytes

  const UNHEALTHY_THRESHOLD := 3
  const UNHEALTHY_COOLDOWN: int := 10_000_000_000
  const MAX_CONNECT_ATTEMPTS := 3

  // ---------------------------------------------------------------- health

  /** One report on a link: a success, or a failure or stall at time t. */
  datatype Report = Good | Bad(t: int)

  /** Failures since the last success. */
  function Streak(reports: seq<Report>): nat {
    if reports == [] || reports[|reports| - 1].Good? then 0 else Streak(reports[..|reports| - 1]) + 1
  }

  class Health {
    var consecutiveFails: nat
    var unhealthyUntil: int
    ghost var reports: seq<Report>

    /**
     For reports that come one at a time the fields say it all: a link is in cooldown exactly
     when its last three or more reports were bad, until ten seconds after the latest of them.
     */
    ghost predicate Valid() reads this {
      && consecutiveFails == Streak(reports)
      && unhealthyUntil == if Streak(reports) >= UNHEALTHY_THRESHOLD
                           then reports[|reports| - 1].t + UNHEALTHY_COOLDOWN else 0
    }

    constructor ()
      ensures Valid() && reports == []
    {
      consecutiveFails, unhealthyUntil, reports := 0, 0, [];
    }

    method RecordSuccess()
      requires Valid()
      modifies this
      ensures Valid() && reports == old(reports) + [Good]
    {
      consecutiveFails, unhealthyUntil := 0, 0;
      reports := reports + [Good];
    }

    method RecordBad(now: int)
      requires Valid()
      modifies this
      ensures Valid() && reports == old(reports) + [Bad(now)]
    {
      consecutiveFails := consecutiveFails + 1;
      if consecutiveFails >= UNHEALTHY_THRESHOLD {
        unhealthyUntil := now + UNHEALTHY_COOLDOWN;
      }
      assert (reports + [Bad(now)])[..|reports|] == reports;
      reports := reports + [Bad(now)];
    }

    method Healthy(now: nat) returns (ok: bool)
      requires Valid()
      ensures ok <==> Streak(reports) < UNHEALTHY_THRESHOLD || now >= reports[|reports| - 1].t + UNHEALTHY_COOLDOWN
    {
      ok := now >= unhealthyUntil;
    }
  }

  // ---------------------------------------------------------------- reports that overlap

  /** The two atomics, and the counts seen by bad reports that have not yet set the cooldown. */
  datatype Race = Race(fails: nat, until: int, counted: seq<nat>)

  /** A bad report is Count, then Cool if it saw three or more; a success is Reset, then Clear. */
  datatype Op = Count | Cool(i: nat, now: nat) | Reset | Clear

  predicate OpEnabled(s: Race, op: Op) {
    op.Cool? ==> op.i < |s.counted| && s.counted[op.i] >= UNHEALTHY_THRESHOLD
  }

  function OpApply(s: Race, op: Op): Race
    requires OpEnabled(s, op)
  {
    match op
    case Count => s.(fails := s.fails + 1, counted := s.counted + [s.fails + 1])
    case Cool(i, now) => s.(until := now + UNHEALTHY_COOLDOWN, counted := s.counted[i := 0])
    case Reset => s.(fails := 0)
    case Clear => s.(until := 0)
  }

  function OpRun(s: Race, ops: seq<Op>): Option<Race> {
    if ops == [] then Some(s)
    else match OpRun(s, ops[..|ops| - 1])
      case None => None
      case Some(p) => if OpEnabled(p, ops[|ops| - 1]) then Some(OpApply(p, ops[|ops| - 1])) else None
  }

  /** Bad reports that began in this run. */
  function Begun(ops: seq<Op>): nat {
    if ops == [] then 0 else Begun(ops[..|ops| - 1]) + (if ops[|ops| - 1].Count? then 1 else 0)
  }

  /** A bad report has counted three or more and not stored yet. */
  ghost predicate Outstanding(s: Race) {
    exists i :: 0 <= i < |s.counted| && s.counted[i] >= UNHEALTHY_THRESHOLD
  }

  /** With nothing outstanding, it takes three new bad reports to get a cooldown again. */
  lemma {:induction false} NoneOutstanding(s: Race, ops: seq<Op>, t: Race)
    requires s.until == 0 && s.fails == 0 && !Outstanding(s) && OpRun(s, ops) == Some(t)
    requires Begun(ops) < UNHEALTHY_THRESHOLD
    ensures t.until == 0 && t.fails <= Begun(ops) && !Outstanding(t)
  {
    if ops != [] {
      var n := |ops| - 1;
      NoneOutstanding(s, ops[..n], OpRun(s, ops[..n]).value);
    }
  }

  /** In some run without a new success and with fewer than three new bad reports, the link cools down. */
  ghost predicate CanCool(s: Race) {
    exists ops, t :: OpRun(s, ops) == Some(t) && Clear !in ops && Begun(ops) < UNHEALTHY_THRESHOLD && t.until != 0
  }

  /**
   After a success the link can be in cooldown again before three new bad reports if and only if
   some bad report had counted three or more by then and has not stored yet.
   */
  lemma CooldownBackExact(s: Race)
    requires s.until == 0 && s.fails == 0
    ensures CanCool(s) <==> Outstanding(s)
  {
    if Outstanding(s) {
      var i :| 0 <= i < |s.counted| && s.counted[i] >= UNHEALTHY_THRESHOLD;
      var ops := [Cool(i, 0)];
      assert ops[..0] == [] && Begun(ops) == 0;
      assert OpRun(s, ops) == Some(OpApply(s, ops[0]));
    } else if CanCool(s) {
      var ops, t :| OpRun(s, ops) == Some(t) && Clear !in ops && Begun(ops) < UNHEALTHY_THRESHOLD && t.until != 0;
      NoneOutstanding(s, ops, t);
    }
  }

  /** Whichever success comes in between: the link then cools down with no failure counted. */
  lemma SuccessOvertaken(s: Race, i: nat, now: nat)
    requires OpEnabled(s, Cool(i, now))
    ensures OpRun(s, [Reset, Clear, Cool(i, now)]) == Some(Race(0, now + UNHEALTHY_COOLDOWN, s.counted[i := 0]))
  {
    var ops := [Reset, Clear, Cool(i, now)];
    assert ops[..2] == [Reset, Clear] && ops[..2][..1] == [Reset] && ops[..2][..1][..0] == [];
    assert OpRun(s, ops[..2][..1]) == Some(s.(fails := 0));
    assert OpRun(s, ops[..2]) == Some(s.(fails := 0, until := 0));
  }

  // ---------------------------------------------------------------- choice

  /** What a pick sees of a link. */
  datatype Link = Link(id: int, healthy: bool, active: int, throughput: Option<int>)

  predicate BetterCandidate(l: Link, cur: Link) {
    if l.active != cur.active then l.active < cur.active
    else if l.throughput.None? || cur.throughput.None? then false
    else l.throughput.value < cur.throughput.value
  }

  predicate Candidate(l: Link, exclude: set<int>, requireHealthy: bool) {
    l.id !in exclude && (requireHealthy ==> l.healthy)
  }

  predicate Tied(l: Link, exclude: set<int>, requireHealthy: bool, active: int) {
    Candidate(l, exclude, requireHealthy) && l.active == active
  }

  /** Among the first n links, those as lightly loaded as link b all report their throughput. */
  ghost predicate TiesReport(links: seq<Link>, n: nat, exclude: set<int>, requireHealthy: bool, active: int)
    requires n <= |links|
  {
    forall i :: 0 <= i < n && Tied(links[i], exclude, requireHealthy, active) ==> links[i].throughput.Some?
  }

  /**
   Link b is the right pick among the first n: a candidate of minimal load and, when all tied
   candidates report throughput, of minimal throughput and earliest such.
   */
  ghost predicate Best(links: seq<Link>, n: nat, exclude: set<int>, requireHealthy: bool, b: nat)
    requires n <= |links|
  {
    && b < n && Candidate(links[b], exclude, requireHealthy)
    && (forall i :: 0 <= i < n && Candidate(links[i], exclude, requireHealthy) ==> links[b].active <= links[i].active)
    && (TiesReport(links, n, exclude, requireHealthy, links[b].active) ==>
         forall i :: 0 <= i < n && Tied(links[i], exclude, requireHealthy, links[b].active) ==>
           && links[b].throughput.value <= links[i].throughput.value
           && (i < b ==> links[b].throughput.value < links[i].throughput.value))
  }

  ghost predicate NoCandidate(links: seq<Link>, n: nat, exclude: set<int>, requireHealthy: bool)
    requires n <= |links|
  {
    forall i :: 0 <= i < n ==> !Candidate(links[i], exclude, requireHealthy)
  }

  method PickFrom(links: seq<Link>, exclude: set<int>, requireHealthy: bool) returns (best: Option<nat>)
    ensures best.None? <==> NoCandidate(links, |links|, exclude, requireHealthy)
    ensures best.Some? ==> Best(links, |links|, exclude, requireHealthy, best.value)
  {
    best := None;
    for n := 0 to |links|
      invariant best.None? ==> NoCandidate(links, n, exclude, requireHealthy)
      invariant best.Some? ==> Best(links, n, exclude, requireHealthy, best.value)
    {
      var l := links[n];
      if l.id in exclude { continue; }
      if requireHealthy && !l.healthy { continue; }
      if best.None? || BetterCandidate(l, links[best.value]) {
        best := Some(n);
      }
    }
    assert best.Some? ==> Candidate(links[best.value], exclude, requireHealthy);
  }

  /**
   PickLeastConnExcluding: nothing exactly when every link is excluded; a healthy link if any
   non-excluded one is healthy; the best of those in either case.
   */
  method PickLeastConnExcluding(links: seq<Link>, exclude: set<int>) returns (best: Option<nat>)
    ensures best.None? <==> forall i :: 0 <= i < |links| ==> links[i].id in exclude
    ensures best.Some? ==> best.value < |links| && links[best.value].id !in exclude
    ensures best.Some? && NoCandidate(links, |links|, exclude, true) ==>
      Best(links, |links|, exclude, false, best.value)
    ensures best.Some? && !NoCandidate(links, |links|, exclude, true) ==>
      links[best.value].healthy && Best(links, |links|, exclude, true, best.value)
  {
    best := PickFrom(links, exclude, true);
    if best.Some? {
      assert !(links[best.value].id in exclude);
      return;
    }
    best := PickFrom(links, exclude, false);
    if best.None? {
      forall i | 0 <= i < |links| ensures links[i].id in exclude {
        assert !Candidate(links[i], exclude, false);
      }
    } else {
      assert !(links[best.value].id in exclude);
    }
  }

  // ---------------------------------------------------------------- failover

  function Ids(links: seq<Link>): (ids: seq<int>) ensures |ids| == |links| {
    seq(|links|, i requires 0 <= i < |links| => links[i].id)
  }

  ghost predicate Unique(ids: seq<int>) {
    forall i, j :: 0 <= i < j < |ids| ==> ids[i] != ids[j]
  }

  function Elements(ids: seq<int>): set<int> { set i | 0 <= i < |ids| :: ids[i] }

  lemma {:induction false} UniqueCount(ids: seq<int>)
    requires Unique(ids)
    ensures |Elements(ids)| == |ids|
  {
    if ids != [] {
      var n := |ids| - 1;
      UniqueCount(ids[..n]);
      assert Elements(ids) == Elements(ids[..n]) + {ids[n]};
      assert ids[n] !in Elements(ids[..n]);
    }
  }

  /** The link with this ID is the one to try: the best of the healthy ones not yet tried, or of all of them. */
  ghost predicate RightPick(links: seq<Link>, exclude: set<int>, id: int) {
    exists b :: 0 <= b < |links| && links[b].id == id && id !in exclude
      && Best(links, |links|, exclude, !NoCandidate(links, |links|, exclude, true), b)
  }

  /** Each link tried was the one to try, given those tried before. */
  ghost predicate RightPicks(pools: seq<seq<Link>>, tried: seq<int>) {
    |tried| <= |pools| && forall k :: 0 <= k < |tried| ==> RightPick(pools[k], Elements(tried[..k]), tried[k])
  }

  lemma PickIsRight(links: seq<Link>, exclude: set<int>, b: nat)
    requires b < |links| && links[b].id !in exclude
    requires Best(links, |links|, exclude, !NoCandidate(links, |links|, exclude, true), b)
    ensures RightPick(links, exclude, links[b].id)
  {}

  lemma OneMorePick(pools: seq<seq<Link>>, tried: seq<int>, id: int)
    requires RightPicks(pools, tried) && |tried| < |pools| && RightPick(pools[|tried|], Elements(tried), id)
    ensures RightPicks(pools, tried + [id])
  {
    var more := tried + [id];
    forall k | 0 <= k < |more| ensures RightPick(pools[k], Elements(more[..k]), more[k]) {
      assert more[..k] == tried[..k];
      assert tried[..|tried|] == tried;
    }
  }

  /** One more link tried: still distinct, still of the pool, and the right one. */
  lemma TryOne(ids: seq<int>, pools: seq<seq<Link>>, tried: seq<int>, b: nat)
    requires |tried| < |pools| && Ids(pools[|tried|]) == ids && b < |pools[|tried|]|
    requires Unique(tried) && Elements(tried) <= Elements(ids) && RightPicks(pools, tried)
    requires var links := pools[|tried|];
      && links[b].id !in Elements(tried)
      && Best(links, |links|, Elements(tried), !NoCandidate(links, |links|, Elements(tried), true), b)
    ensures var id := pools[|tried|][b].id; var more := tried + [id];
      && Unique(more) && Elements(more) == Elements(tried) + {id} && Elements(more) <= Elements(ids)
      && RightPicks(pools, more)
  {
    var id := pools[|tried|][b].id;
    assert id == ids[b];
    PickIsRight(pools[|tried|], Elements(tried), b);
    OneMorePick(pools, tried, id);
    Extended(tried + [id], id);
    assert (tried + [id])[..|tried|] == tried;
  }

  /**
   handleSOCKS: `pools[k]` is the pool as attempt k sees it, `outcomes[k]` how that attempt ends.
   At most three pairwise distinct links are tried, each the right one to try then; it gives up
   only after min(3, n) of them, and succeeds exactly with the attempt that connected.
   */
  method HandleSocks(ids: seq<int>, pools: seq<seq<Link>>, outcomes: seq<bool>)
    returns (tried: seq<int>, connected: bool)
    requires Unique(ids) && |pools| == MAX_CONNECT_ATTEMPTS == |outcomes|
    requires forall k :: 0 <= k < |pools| ==> Ids(pools[k]) == ids
    ensures |tried| <= MAX_CONNECT_ATTEMPTS && Unique(tried) && Elements(tried) <= Elements(ids)
    ensures forall k :: 0 <= k < |tried| ==> outcomes[k] == (connected && k == |tried| - 1)
    ensures RightPicks(pools, tried)
    ensures !connected ==> |tried| == if |ids| < MAX_CONNECT_ATTEMPTS then |ids| else MAX_CONNECT_ATTEMPTS
    ensures connected ==> tried != []
  {
    tried, connected := [], false;
    var excluded: set<int> := {};
    for attempt := 0 to MAX_CONNECT_ATTEMPTS
      invariant |tried| == attempt && excluded == Elements(tried)
      invariant Unique(tried) && Elements(tried) <= Elements(ids)
      invariant forall k :: 0 <= k < attempt ==> !outcomes[k]
      invariant RightPicks(pools, tried)
    {
      var link := PickLeastConnExcluding(pools[attempt], excluded);
      if link.None? {
        AllTried(ids, pools[attempt], tried);
        return;
      }
      var id := pools[attempt][link.value].id;
      TryOne(ids, pools, tried, link.value);
      tried := tried + [id];
      if outcomes[attempt] {
        connected := true;
        return;
      }
      excluded := excluded + {id};
    }
    Subset(tried, ids);
  }

  lemma Extended(tried: seq<int>, id: int)
    requires tried != [] && tried[|tried| - 1] == id
    ensures Elements(tried) == Elements(tried[..|tried| - 1]) + {id}
  {}

  lemma Subset(tried: seq<int>, ids: seq<int>)
    requires Unique(tried) && Unique(ids) && Elements(tried) <= Elements(ids)
    ensures |tried| <= |ids|
  {
    UniqueCount(tried);
    UniqueCount(ids);
    CardinalitySubset(Elements(tried), Elements(ids));
  }

  lemma CardinalitySubset(a: set<int>, b: set<int>)
    requires a <= b
    ensures |a| <= |b|
  {
    assert b == a + (b - a);
  }

  lemma AllTried(ids: seq<int>, pool: seq<Link>, tried: seq<int>)
    requires Unique(ids) && Unique(tried) && Ids(pool) == ids && Elements(tried) <= Elements(ids)
    requires forall i :: 0 <= i < |pool| ==> pool[i].id in Elements(tried)
    ensures |tried| == |ids|
  {
    forall i | 0 <= i < |ids| ensures ids[i] in Elements(tried) {
      assert ids[i] == pool[i].id;
    }
    assert Elements(ids) == Elements(tried);
    UniqueCount(ids);
    UniqueCount(tried);
  }
}
