/** A message that always fails, on a broker that loses nothing: how often it is delivered and where
    it ends up. */
module RetryRuns {
  import opened Retry

  /** A retryable failure with nothing lost on the way. */
  function Lossless(reason: string): Verdict {
    Verdict(true, false, false, false, false, true, true, reason)
  }

  /** The copy is delivered and fails. */
  function Attempt(tag: nat, reason: string): seq<Event> {
    [Deliver(tag), Fail(tag, Lossless(reason))]
  }

  function Delivered(c: Copy): Copy {
    c.(deliveries := c.deliveries + 1)
  }

  lemma RunTwo(b: Broker, x: Event, y: Event, maxRetries: int)
    ensures RunBroker(b, [x, y], maxRetries) == StepBroker(StepBroker(b, x, maxRetries), y, maxRetries)
  {
    var next := StepBroker(b, x, maxRetries);
    assert [x, y][0] == x && [x, y][1..] == [y] && [y][1..] == [];
    assert RunBroker(b, [x, y], maxRetries) == RunBroker(next, [y], maxRetries);
    assert RunBroker(next, [y], maxRetries) == RunBroker(StepBroker(next, y, maxRetries), [], maxRetries);
  }

  /** One attempt: below the maximum the successor takes the copy's place in the queue, at the maximum
      the copy is dead-lettered. */
  lemma AttemptIs(b: Broker, tag: nat, reason: string, maxRetries: int)
    requires TagsFresh(b) && tag in b.queued
    ensures var c, d := b.queued[tag], RunBroker(b, Attempt(tag, reason), maxRetries);
            d == if c.Count() < maxRetries
                 then b.(queued := (b.queued - {tag})[b.nextTag := Successor(Delivered(c), reason)],
                         nextTag := b.nextTag + 1)
                 else b.(queued := b.queued - {tag}, dead := b.dead[tag := Delivered(c)])
  {
    var c := b.queued[tag];
    RunTwo(b, Deliver(tag), Fail(tag, Lossless(reason)), maxRetries);
    var e := StepBroker(b, Deliver(tag), maxRetries);
    assert e == b.(queued := b.queued - {tag}, unacked := b.unacked[tag := Delivered(c)]);
    assert e.unacked[tag] == Delivered(c) && Delivered(c).Count() == c.Count();
    assert e.unacked - {tag} == b.unacked;
  }

  /** n attempts in a row: of the copy with this tag, then of each successor, which is filed under the
      next free tag. */
  function Attempts(tag: nat, next: nat, n: nat, reason: string): seq<Event>
    decreases n
  {
    if n == 0 then [] else Attempt(tag, reason) + Attempts(next, next + 1, n - 1, reason)
  }

  lemma {:induction false} RunAppend(b: Broker, xs: seq<Event>, ys: seq<Event>, maxRetries: int)
    ensures RunBroker(b, xs + ys, maxRetries) == RunBroker(RunBroker(b, xs, maxRetries), ys, maxRetries)
    decreases xs
  {
    if xs == [] {
      assert xs + ys == ys;
    } else {
      assert (xs + ys)[0] == xs[0] && (xs + ys)[1..] == xs[1..] + ys;
      RunAppend(StepBroker(b, xs[0], maxRetries), xs[1..], ys, maxRetries);
    }
  }

  lemma SuccessorIs(c: Copy, reason: string)
    ensures var n := Successor(Delivered(c), reason);
            n.id == c.id && n.deliveries == c.deliveries + 1 && n.Count() == c.Count() + 1
  {
    HeadersRoundTrip(Delivered(c).headers, c.Count(), reason);
  }

  /** The broker d is b, but for one more dead copy of the message: filed under `last`, delivered so
      often, and with its retries used up. */
  predicate EndsDead(b: Broker, d: Broker, last: nat, id: nat, deliveries: int, maxRetries: int) {
    && d.unacked == b.unacked && d.processed == b.processed
    && last !in b.dead && last in d.dead && d.dead == b.dead[last := d.dead[last]]
    && d.dead[last].id == id && d.dead[last].deliveries == deliveries && d.dead[last].Count() == maxRetries
  }

  lemma LastAttempt(b: Broker, tag: nat, reason: string, maxRetries: int)
    requires TagsFresh(b) && tag in b.queued && b.queued[tag].Count() == maxRetries
    ensures var c, d := b.queued[tag], RunBroker(b, Attempts(tag, b.nextTag, 1, reason), maxRetries);
            d.queued == b.queued - {tag} && EndsDead(b, d, tag, c.id, c.deliveries + 1, maxRetries)
  {
    AttemptIs(b, tag, reason, maxRetries);
    assert Attempts(tag, b.nextTag, 1, reason) == Attempt(tag, reason);
  }

  /** The broker after an attempt that is not the last. */
  function Moved(b: Broker, tag: nat, reason: string): Broker
    requires tag in b.queued
  {
    b.(queued := (b.queued - {tag})[b.nextTag := Successor(Delivered(b.queued[tag]), reason)], nextTag := b.nextTag + 1)
  }

  lemma MovedKeeps(b: Broker, tag: nat, reason: string)
    requires TagsFresh(b) && tag in b.queued
    ensures TagsFresh(Moved(b, tag, reason)) && Moved(b, tag, reason).queued - {b.nextTag} == b.queued - {tag}
  {
  }

  lemma FirstAttempt(b: Broker, tag: nat, reason: string, maxRetries: int, left: nat)
    requires TagsFresh(b) && tag in b.queued && b.queued[tag].Count() < maxRetries
    ensures RunBroker(b, Attempts(tag, b.nextTag, left + 1, reason), maxRetries) ==
            RunBroker(Moved(b, tag, reason), Attempts(b.nextTag, b.nextTag + 1, left, reason), maxRetries)
  {
    RunAppend(b, Attempt(tag, reason), Attempts(b.nextTag, b.nextTag + 1, left, reason), maxRetries);
    AttemptIs(b, tag, reason, maxRetries);
    assert RunBroker(b, Attempt(tag, reason), maxRetries) == Moved(b, tag, reason);
  }

  /** All attempts still allowed and the last one: the chain leaves the queue for the dead-letter
      queue, delivered once per attempt, and nothing else on the broker changes. */
  lemma {:induction false} ChainEndsDead(b: Broker, tag: nat, reason: string, maxRetries: int, left: nat)
    requires TagsFresh(b) && tag in b.queued && left == maxRetries - b.queued[tag].Count()
    ensures var c, d := b.queued[tag], RunBroker(b, Attempts(tag, b.nextTag, left + 1, reason), maxRetries);
            && d.queued == b.queued - {tag}
            && EndsDead(b, d, if left == 0 then tag else b.nextTag + left - 1,
                        c.id, c.deliveries + left + 1, maxRetries)
    decreases left
  {
    if left == 0 {
      LastAttempt(b, tag, reason, maxRetries);
    } else {
      FirstAttempt(b, tag, reason, maxRetries, left);
      MovedKeeps(b, tag, reason);
      SuccessorIs(b.queued[tag], reason);
      ChainEndsDead(Moved(b, tag, reason), b.nextTag, reason, maxRetries, left - 1);
    }
  }

  /** A message published without retries that always fails retryably is delivered exactly
      maxRetries + 1 times and then dead-lettered. */
  lemma FreshMessageEndsDead(b: Broker, id: nat, headers: Table, reason: string, maxRetries: nat)
    requires TagsFresh(b) && id !in b.published && RetryCountFromHeaders(headers) == 0
    ensures var events := [Publish(id, headers)] + Attempts(b.nextTag, b.nextTag + 1, maxRetries + 1, reason);
            var d := RunBroker(b, events, maxRetries);
            d.queued == b.queued && EndsDead(b, d, b.nextTag + maxRetries, id, maxRetries + 1, maxRetries)
  {
    var published := StepBroker(b, Publish(id, headers), maxRetries);
    var attempts := Attempts(b.nextTag, b.nextTag + 1, maxRetries + 1, reason);
    RunAppend(b, [Publish(id, headers)], attempts, maxRetries);
    assert [Publish(id, headers)][1..] == [];
    assert RunBroker(b, [Publish(id, headers)], maxRetries) == published;
    ChainEndsDead(published, b.nextTag, reason, maxRetries, maxRetries);
    assert published.queued - {b.nextTag} == b.queued;
  }
}
