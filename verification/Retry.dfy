/**
 The two nested retry loops: sendRetry (telegram/sender.go) around one API call, and
 sendWithRetry (protocol/batch.go) around one Send. The API is a stream of replies, of which
 only finitely many are rate-limit replies: none from index `calm` on.
 */
module Retry {

  const SENDER_MAX_RETRIES := 3
  const MAX_SEND_RETRIES := 5

  datatype Reply = Sent | RateLimited | Transient | Permanent

  datatype Outcome = Done | Failed(permanent: bool)

  /** API calls from `from` up to `upto` whose reply was not a rate limit. */
  function Counted(reply: nat -> Reply, from: nat, upto: nat): nat
    requires from <= upto
    decreases upto
  {
    if from == upto then 0
    else Counted(reply, from, upto - 1) + (if reply(upto - 1).RateLimited? then 0 else 1)
  }

  lemma {:induction false} CountedSplit(reply: nat -> Reply, a: nat, b: nat, c: nat)
    requires a <= b <= c
    ensures Counted(reply, a, c) == Counted(reply, a, b) + Counted(reply, b, c)
    decreases c
  {
    if b < c {
      CountedSplit(reply, a, b, c - 1);
    }
  }

  ghost predicate CalmFrom(reply: nat -> Reply, calm: nat) {
    forall k: nat :: k >= calm ==> !reply(k).RateLimited?
  }

  ghost function Left(a: int, b: int): nat { if a < b then b - a else 0 }

  /**
   One Send. It ends, after at most four replies that are not rate limits, and its last reply
   decides: success, a permanent error at once, or a transient error after four attempts of
   any kind. Every earlier reply was a rate limit or a transient error.
   */
  method SendRetry(reply: nat -> Reply, from: nat, ghost calm: nat) returns (r: Outcome, next: nat)
    requires CalmFrom(reply, calm)
    ensures from < next
    ensures Counted(reply, from, next) <= SENDER_MAX_RETRIES + 1
    ensures forall k :: from <= k < next - 1 ==> reply(k).RateLimited? || reply(k).Transient?
    ensures match reply(next - 1)
      case Sent => r == Done
      case Permanent => r == Failed(true)
      case Transient => r == Failed(false) && next - from >= SENDER_MAX_RETRIES + 1
      case RateLimited => false
  {
    var attempt := 0;
    next := from;
    while true
      invariant next == from + attempt
      invariant Counted(reply, from, next) <= SENDER_MAX_RETRIES
      invariant forall k :: from <= k < next ==> reply(k).RateLimited? || reply(k).Transient?
      invariant Counted(reply, from, next) <= attempt
      invariant attempt > SENDER_MAX_RETRIES ==> reply(next - 1).RateLimited?
      decreases Left(next, calm), Left(attempt, SENDER_MAX_RETRIES + 1)
    {
      var x := reply(next);
      next := next + 1;
      match x {
        case Sent => return Done, next;
        case RateLimited =>
        case Permanent => return Failed(true), next;
        case Transient =>
          if attempt >= SENDER_MAX_RETRIES { return Failed(false), next; }
      }
      attempt := attempt + 1;
    }
  }

  /**
   One sealed piece. Both loops end; the piece costs at most 24 replies that are not rate
   limits; success and a permanent error are each the very last reply; transient errors end it
   only after 24 calls.
   */
  method SendWithRetry(reply: nat -> Reply, from: nat, ghost calm: nat) returns (delivered: bool, next: nat)
    requires CalmFrom(reply, calm)
    ensures from < next
    ensures Counted(reply, from, next) <= (MAX_SEND_RETRIES + 1) * (SENDER_MAX_RETRIES + 1)
    ensures forall k :: from <= k < next - 1 ==> reply(k).RateLimited? || reply(k).Transient?
    ensures delivered <==> reply(next - 1).Sent?
    ensures !delivered && !reply(next - 1).Permanent? ==>
      next - from >= (MAX_SEND_RETRIES + 1) * (SENDER_MAX_RETRIES + 1)
  {
    delivered, next := false, from;
    var attempt := 0;
    while attempt <= MAX_SEND_RETRIES
      invariant 0 <= attempt <= MAX_SEND_RETRIES + 1 && from <= next && (attempt > 0 ==> from < next)
      invariant Counted(reply, from, next) <= attempt * (SENDER_MAX_RETRIES + 1)
      invariant next - from >= attempt * (SENDER_MAX_RETRIES + 1)
      invariant forall k :: from <= k < next ==> reply(k).RateLimited? || reply(k).Transient?
      decreases MAX_SEND_RETRIES - attempt
    {
      var r, n := SendRetry(reply, next, calm);
      CountedSplit(reply, from, next, n);
      next := n;
      if r.Done? { return true, next; }
      if r.permanent { return false, next; }
      attempt := attempt + 1;
    }
  }
}
