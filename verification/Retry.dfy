/** The retry engine of pkg/rabbitmq: header bookkeeping (headers.go) and the failure protocol of
    RetryManager.HandleFailure (retry.go), run against a broker that may lose acks and nacks and
    redeliver what was left unacked. */
module Retry {
  // ---------- headers ----------

  datatype HeaderValue = Int(i: int) | Int32(i32: int) | Int64(i64: int) | Float(f: real) | Text(s: string) | OtherValue

  type Table = map<string, HeaderValue>

  const RETRY_COUNT := "x-retry-count"
  const FAILURE_REASON := "x-failure-reason"

  function Clamp(i: int): nat {
    if i < 0 then 0 else i
  }

  function RetryCountFromHeaders(headers: Table): nat {
    if RETRY_COUNT !in headers then 0
    else match headers[RETRY_COUNT]
      case Int(i) => Clamp(i)
      case Int32(i) => Clamp(i)
      case Int64(i) => Clamp(i)
      case Float(f) => if f < 0.0 then 0 else f.Floor
      case _ => 0
  }

  function BuildRetryHeaders(original: Table, retryCount: nat, reason: string): Table {
    original[RETRY_COUNT := Int(retryCount + 1)][FAILURE_REASON := Text(reason)]
  }

  /** Same headers apart from the two the retry engine owns. */
  predicate SameUnrelated(a: Table, b: Table) {
    a - {RETRY_COUNT, FAILURE_REASON} == b - {RETRY_COUNT, FAILURE_REASON}
  }

  /** What is written is what is read back, and nothing else moves. */
  lemma HeadersRoundTrip(original: Table, retryCount: nat, reason: string)
    ensures var h := BuildRetryHeaders(original, retryCount, reason);
            && RetryCountFromHeaders(h) == retryCount + 1
            && SameUnrelated(h, original)
            && h[FAILURE_REASON] == Text(reason)
  {
    assert RETRY_COUNT[2] != FAILURE_REASON[2];
    var h := BuildRetryHeaders(original, retryCount, reason);
    assert h - {RETRY_COUNT, FAILURE_REASON} == original - {RETRY_COUNT, FAILURE_REASON};
  }

  /** Every numeric encoding of a count is read back, negative ones as zero, fractions rounded down;
      a missing or other value means no retry yet. */
  lemma CountOfEncodings(headers: Table, i: int, f: real)
    ensures RetryCountFromHeaders(headers[RETRY_COUNT := Int(i)]) == Clamp(i)
    ensures RetryCountFromHeaders(headers[RETRY_COUNT := Int32(i)]) == Clamp(i)
    ensures RetryCountFromHeaders(headers[RETRY_COUNT := Int64(i)]) == Clamp(i)
    ensures RetryCountFromHeaders(headers[RETRY_COUNT := Float(i as real)]) == Clamp(i)
    ensures if i >= 0 then Clamp(i) == i else Clamp(i) == 0
    ensures var n := RetryCountFromHeaders(headers[RETRY_COUNT := Float(f)]) as real;
            if f >= 0.0 then n <= f < n + 1.0 else n == 0.0
    ensures RETRY_COUNT !in headers || headers[RETRY_COUNT].Text? || headers[RETRY_COUNT].OtherValue? ==>
              RetryCountFromHeaders(headers) == 0
  {
  }

  // ---------- the broker ----------

  /** A copy of message `id`, with the deliveries and redeliveries of its whole chain of retries. */
  datatype Copy = Copy(id: nat, headers: Table, deliveries: nat, redeliveries: nat) {
    function Count(): nat {
      RetryCountFromHeaders(headers)
    }
  }

  datatype Broker = Broker(
    queued: map<nat, Copy>,
    unacked: map<nat, Copy>,
    dead: map<nat, Copy>,
    processed: set<nat>,
    published: map<nat, Table>,
    nextTag: nat)

  /** What the environment decides about one failure: the classifier's verdict, whether the wait is
      interrupted, how the republish ends (an error may follow a publish the broker accepted, and
      its hook may or may not get the message dead-lettered), and which acks and nacks arrive. */
  datatype Verdict = Verdict(
    retryable: bool,
    interrupted: bool,
    publishError: bool,
    acceptedAnyway: bool,
    hookNacks: bool,
    ackArrives: bool,
    nackArrives: bool,
    reason: string)

  datatype Event =
    | Publish(id: nat, headers: Table)
    | Deliver(tag: nat)
    | Redeliver(tag: nat)
    | Succeed(tag: nat, ackArrives: bool)
    | Fail(tag: nat, verdict: Verdict)

  function DeadLetter(b: Broker, tag: nat): Broker
    requires tag in b.unacked
  {
    b.(unacked := b.unacked - {tag}, dead := b.dead[tag := b.unacked[tag]])
  }

  function Enqueue(b: Broker, c: Copy): Broker {
    b.(queued := b.queued[b.nextTag := c], nextTag := b.nextTag + 1)
  }

  function Successor(c: Copy, reason: string): Copy {
    c.(headers := BuildRetryHeaders(c.headers, c.Count(), reason))
  }

  function HandleFailure(b: Broker, tag: nat, v: Verdict, maxRetries: int): Broker
    requires tag in b.unacked
  {
    var c := b.unacked[tag];
    if !v.retryable || c.Count() >= maxRetries then
      if v.nackArrives then DeadLetter(b, tag) else b
    else if v.interrupted then b
    else if v.publishError then
      var sent := if v.acceptedAnyway then Enqueue(b, Successor(c, v.reason)) else b;
      if v.hookNacks then DeadLetter(sent, tag) else sent
    else
      var sent := Enqueue(b, Successor(c, v.reason));
      if v.ackArrives then sent.(unacked := sent.unacked - {tag}) else sent
  }

  function StepBroker(b: Broker, e: Event, maxRetries: int): Broker {
    match e
    case Publish(id, headers) =>
      if id in b.published then b
      else Enqueue(b.(published := b.published[id := headers]), Copy(id, headers, 0, 0))
    case Deliver(tag) =>
      if tag !in b.queued then b
      else
        var c := b.queued[tag];
        b.(queued := b.queued - {tag}, unacked := b.unacked[tag := c.(deliveries := c.deliveries + 1)])
    case Redeliver(tag) =>
      if tag !in b.unacked then b
      else
        var c := b.unacked[tag];
        b.(unacked := b.unacked - {tag}, queued := b.queued[tag := c.(redeliveries := c.redeliveries + 1)])
    case Succeed(tag, ackArrives) =>
      if tag !in b.unacked then b
      else
        b.(processed := b.processed + {b.unacked[tag].id},
           unacked := if ackArrives then b.unacked - {tag} else b.unacked)
    case Fail(tag, verdict) =>
      if tag !in b.unacked then b else HandleFailure(b, tag, verdict, maxRetries)
  }

  function RunBroker(b: Broker, events: seq<Event>, maxRetries: int): Broker
    decreases events
  {
    if events == [] then b else RunBroker(StepBroker(b, events[0], maxRetries), events[1..], maxRetries)
  }

  /** The engine as a sequence of effects on a channel. */
  class Channel {
    var queued: map<nat, Copy>
    var unacked: map<nat, Copy>
    var dead: map<nat, Copy>
    var processed: set<nat>
    var published: map<nat, Table>
    var nextTag: nat
    const maxRetries: int

    constructor (maxRetries: int)
      ensures Now() == Broker(map[], map[], map[], {}, map[], 0) && this.maxRetries == maxRetries
    {
      queued, unacked, dead, processed, published, nextTag := map[], map[], map[], {}, map[], 0;
      this.maxRetries := maxRetries;
    }

    function Now(): Broker
      reads this
    {
      Broker(queued, unacked, dead, processed, published, nextTag)
    }

    method Ack(tag: nat, arrives: bool)
      modifies this`unacked
      ensures unacked == if arrives then old(unacked) - {tag} else old(unacked)
    {
      if arrives {
        unacked := unacked - {tag};
      }
    }

    /** Nack without requeue: the broker dead-letters the delivery. */
    method NackToDLQ(tag: nat, arrives: bool)
      requires tag in unacked
      modifies this`unacked, this`dead
      ensures Now() == if arrives then DeadLetter(old(Now()), tag) else old(Now())
    {
      if arrives {
        dead := dead[tag := unacked[tag]];
        unacked := unacked - {tag};
      }
    }

    method Republish(c: Copy)
      modifies this`queued, this`nextTag
      ensures Now() == Enqueue(old(Now()), c)
    {
      queued := queued[nextTag := c];
      nextTag := nextTag + 1;
    }

    method OnFailure(tag: nat, v: Verdict)
      requires tag in unacked
      modifies this
      ensures Now() == HandleFailure(old(Now()), tag, v, maxRetries)
    {
      var message := unacked[tag];
      var retryCount := RetryCountFromHeaders(message.headers);
      if !v.retryable {
        NackToDLQ(tag, v.nackArrives);
        return;
      }
      if retryCount >= maxRetries {
        NackToDLQ(tag, v.nackArrives);
        return;
      }
      if v.interrupted {
        return;
      }
      var headers := BuildRetryHeaders(message.headers, retryCount, v.reason);
      if !v.publishError || v.acceptedAnyway {
        Republish(message.(headers := headers));
      }
      if v.publishError {
        NackToDLQ(tag, v.hookNacks);
        return;
      }
      Ack(tag, v.ackArrives);
    }
  }

  // ---------- what one failure does ----------

  /** The failure is worth another attempt. */
  predicate WorthRetrying(c: Copy, v: Verdict, maxRetries: int) {
    v.retryable && c.Count() < maxRetries
  }

  /** A successor reaches the queue: the wait was not cut short and the broker took the message. */
  predicate Republished(c: Copy, v: Verdict, maxRetries: int) {
    WorthRetrying(c, v, maxRetries) && !v.interrupted && (!v.publishError || v.acceptedAnyway)
  }

  /** The delivery goes to the dead-letter queue: it is not worth retrying, or it could not be
      republished, and the nack arrives. */
  predicate DeadLettered(c: Copy, v: Verdict, maxRetries: int) {
    if !WorthRetrying(c, v, maxRetries) then v.nackArrives
    else !v.interrupted && v.publishError && v.hookNacks
  }

  /** The delivery is acked: only after a republish without error. */
  predicate Acked(c: Copy, v: Verdict, maxRetries: int) {
    WorthRetrying(c, v, maxRetries) && !v.interrupted && !v.publishError && v.ackArrives
  }

  /** Exactly which failures are retried, dead-lettered, acked, or left for redelivery; every other
      copy stays where it is. */
  lemma FailureOutcome(b: Broker, tag: nat, v: Verdict, maxRetries: int)
    requires tag in b.unacked && TagsFresh(b)
    ensures var c, d := b.unacked[tag], HandleFailure(b, tag, v, maxRetries);
            && (if Republished(c, v, maxRetries)
                then d.queued == b.queued[b.nextTag := Successor(c, v.reason)] && b.nextTag !in b.queued
                else d.queued == b.queued)
            && (tag in d.dead <==> DeadLettered(c, v, maxRetries))
            && (tag in d.unacked <==> !DeadLettered(c, v, maxRetries) && !Acked(c, v, maxRetries))
            && d.unacked - {tag} == b.unacked - {tag} && d.dead - {tag} == b.dead - {tag}
            && (tag in d.unacked ==> d.unacked[tag] == c) && (tag in d.dead ==> d.dead[tag] == c)
            && d.processed == b.processed && d.published == b.published
  {
  }

  // ---------- what every run keeps ----------

  function Max(a: int, b: int): int {
    if a >= b then a else b
  }

  /** Bookkeeping of one copy: it descends from its publication by `Count` retries, and its chain
      of deliveries is accounted for exactly. */
  predicate Accounted(c: Copy, published: map<nat, Table>, maxRetries: int, inHand: int) {
    && c.id in published
    && SameUnrelated(c.headers, published[c.id])
    && c.Count() >= RetryCountFromHeaders(published[c.id])
    && c.Count() <= Max(maxRetries, RetryCountFromHeaders(published[c.id]))
    && c.deliveries == c.Count() - RetryCountFromHeaders(published[c.id]) + c.redeliveries + inHand
  }

  predicate TagsFresh(b: Broker) {
    && b.queued.Keys !! b.unacked.Keys
    && (forall t :: t in b.queued ==> t < b.nextTag)
    && (forall t :: t in b.unacked ==> t < b.nextTag)
    && (forall t :: t in b.dead ==> t < b.nextTag && t !in b.queued && t !in b.unacked)
  }

  predicate AllAccounted(b: Broker, maxRetries: int) {
    && (forall t :: t in b.queued ==> Accounted(b.queued[t], b.published, maxRetries, 0))
    && (forall t :: t in b.unacked ==> Accounted(b.unacked[t], b.published, maxRetries, 1))
    && (forall t :: t in b.dead ==> Accounted(b.dead[t], b.published, maxRetries, 1))
  }

  predicate Holds(b: Broker, t: nat, id: nat) {
    || (t in b.queued && b.queued[t].id == id)
    || (t in b.unacked && b.unacked[t].id == id)
    || (t in b.dead && b.dead[t].id == id)
  }

  /** A live copy: queued, unacked or dead-lettered. */
  ghost predicate Live(b: Broker, id: nat) {
    exists t :: Holds(b, t, id)
  }

  ghost predicate NothingLost(b: Broker) {
    forall id :: id in b.published ==> id in b.processed || Live(b, id)
  }

  ghost predicate BrokerInv(b: Broker, maxRetries: int) {
    TagsFresh(b) && AllAccounted(b, maxRetries) && NothingLost(b)
  }

  lemma SuccessorAccounted(c: Copy, published: map<nat, Table>, maxRetries: int, reason: string)
    requires Accounted(c, published, maxRetries, 1) && c.Count() < maxRetries
    ensures Accounted(Successor(c, reason), published, maxRetries, 0)
    ensures Successor(c, reason).Count() == c.Count() + 1
  {
    HeadersRoundTrip(c.headers, c.Count(), reason);
  }

  /** Enqueueing an accounted copy keeps everything and loses nothing. */
  lemma EnqueueKeeps(b: Broker, c: Copy, maxRetries: int)
    requires TagsFresh(b) && AllAccounted(b, maxRetries) && Accounted(c, b.published, maxRetries, 0)
    ensures TagsFresh(Enqueue(b, c)) && AllAccounted(Enqueue(b, c), maxRetries)
    ensures Holds(Enqueue(b, c), b.nextTag, c.id)
    ensures forall t, id :: Holds(b, t, id) ==> Holds(Enqueue(b, c), t, id)
  {
  }

  lemma DeadLetterKeeps(b: Broker, tag: nat, maxRetries: int)
    requires tag in b.unacked && TagsFresh(b) && AllAccounted(b, maxRetries)
    ensures TagsFresh(DeadLetter(b, tag)) && AllAccounted(DeadLetter(b, tag), maxRetries)
    ensures forall t, id :: Holds(b, t, id) ==> Holds(DeadLetter(b, tag), t, id)
  {
  }

  /** If every copy of a message survives, or another copy of the same message takes its place,
      nothing is lost. */
  lemma LossFree(b: Broker, d: Broker, dropped: nat, kept: nat)
    requires NothingLost(b) && d.published == b.published && b.processed <= d.processed
    requires forall t, id :: Holds(b, t, id) && t != dropped ==> Holds(d, t, id)
    requires forall id :: Holds(b, dropped, id) ==> id in d.processed || Holds(d, kept, id)
    ensures NothingLost(d)
  {
    forall id | id in d.published ensures id in d.processed || Live(d, id) {
      if id !in b.processed {
        var t :| Holds(b, t, id);
        if t != dropped {
          assert Holds(d, t, id);
        }
      }
    }
  }

  /** Dead-lettering keeps the invariant. */
  lemma NackKeeps(b: Broker, tag: nat, maxRetries: int)
    requires BrokerInv(b, maxRetries) && tag in b.unacked
    ensures BrokerInv(DeadLetter(b, tag), maxRetries)
  {
    DeadLetterKeeps(b, tag, maxRetries);
    LossFree(b, DeadLetter(b, tag), tag, tag);
  }

  /** So does republishing, before the original is acked. */
  lemma RepublishKeeps(b: Broker, tag: nat, reason: string, maxRetries: int)
    requires BrokerInv(b, maxRetries) && tag in b.unacked && b.unacked[tag].Count() < maxRetries
    ensures BrokerInv(Enqueue(b, Successor(b.unacked[tag], reason)), maxRetries)
    ensures Holds(Enqueue(b, Successor(b.unacked[tag], reason)), b.nextTag, b.unacked[tag].id)
  {
    var c := Successor(b.unacked[tag], reason);
    SuccessorAccounted(b.unacked[tag], b.published, maxRetries, reason);
    EnqueueKeeps(b, c, maxRetries);
    LossFree(b, Enqueue(b, c), tag, tag);
  }

  /** And so does acking a delivery whose message another copy still holds, or was processed. */
  lemma AckKeeps(b: Broker, tag: nat, kept: nat, maxRetries: int)
    requires BrokerInv(b, maxRetries) && tag in b.unacked && kept != tag
    requires b.unacked[tag].id in b.processed || Holds(b, kept, b.unacked[tag].id)
    ensures BrokerInv(b.(unacked := b.unacked - {tag}), maxRetries)
  {
    LossFree(b, b.(unacked := b.unacked - {tag}), tag, kept);
  }

  lemma FailKeeps(b: Broker, tag: nat, v: Verdict, maxRetries: int)
    requires BrokerInv(b, maxRetries) && tag in b.unacked
    ensures BrokerInv(HandleFailure(b, tag, v, maxRetries), maxRetries)
  {
    NackKeeps(b, tag, maxRetries);
    if v.retryable && b.unacked[tag].Count() < maxRetries {
      RepublishKeeps(b, tag, v.reason, maxRetries);
      var sent := Enqueue(b, Successor(b.unacked[tag], v.reason));
      NackKeeps(sent, tag, maxRetries);
      AckKeeps(sent, tag, b.nextTag, maxRetries);
    }
  }

  lemma DeliverKeeps(b: Broker, tag: nat, maxRetries: int)
    requires BrokerInv(b, maxRetries) && tag in b.queued
    ensures BrokerInv(StepBroker(b, Deliver(tag), maxRetries), maxRetries)
  {
    LossFree(b, StepBroker(b, Deliver(tag), maxRetries), tag, tag);
  }

  lemma RedeliverKeeps(b: Broker, tag: nat, maxRetries: int)
    requires BrokerInv(b, maxRetries) && tag in b.unacked
    ensures BrokerInv(StepBroker(b, Redeliver(tag), maxRetries), maxRetries)
  {
    LossFree(b, StepBroker(b, Redeliver(tag), maxRetries), tag, tag);
  }

  lemma SucceedKeeps(b: Broker, tag: nat, ackArrives: bool, maxRetries: int)
    requires BrokerInv(b, maxRetries) && tag in b.unacked
    ensures BrokerInv(StepBroker(b, Succeed(tag, ackArrives), maxRetries), maxRetries)
  {
    var done := b.(processed := b.processed + {b.unacked[tag].id});
    LossFree(b, done, tag, tag);
    AckKeeps(done, tag, tag + 1, maxRetries);
  }

  lemma StepKeeps(b: Broker, e: Event, maxRetries: int)
    requires BrokerInv(b, maxRetries)
    ensures BrokerInv(StepBroker(b, e, maxRetries), maxRetries)
  {
    if e.Publish? {
      if e.id !in b.published {
        PublishKeeps(b, e.id, e.headers, maxRetries);
      }
    } else if e.Deliver? {
      if e.tag in b.queued {
        DeliverKeeps(b, e.tag, maxRetries);
      }
    } else if e.tag in b.unacked {
      match e
      case Redeliver(tag) => RedeliverKeeps(b, tag, maxRetries);
      case Succeed(tag, ackArrives) => SucceedKeeps(b, tag, ackArrives, maxRetries);
      case Fail(tag, verdict) => FailKeeps(b, tag, verdict, maxRetries);
    }
  }

  /** A new publication does not touch the accounts of the others. */
  lemma KnowMore(b: Broker, id: nat, headers: Table, maxRetries: int)
    requires TagsFresh(b) && AllAccounted(b, maxRetries) && id !in b.published
    ensures var known := b.(published := b.published[id := headers]);
            TagsFresh(known) && AllAccounted(known, maxRetries)
  {
  }

  lemma PublishKeeps(b: Broker, id: nat, headers: Table, maxRetries: int)
    requires BrokerInv(b, maxRetries) && id !in b.published
    ensures BrokerInv(StepBroker(b, Publish(id, headers), maxRetries), maxRetries)
  {
    var known := b.(published := b.published[id := headers]);
    KnowMore(b, id, headers, maxRetries);
    EnqueueKeeps(known, Copy(id, headers, 0, 0), maxRetries);
    PublishLosesNothing(b, id, headers);
  }

  lemma PublishLosesNothing(b: Broker, id: nat, headers: Table)
    requires TagsFresh(b) && NothingLost(b)
    ensures NothingLost(Enqueue(b.(published := b.published[id := headers]), Copy(id, headers, 0, 0)))
  {
    var d := Enqueue(b.(published := b.published[id := headers]), Copy(id, headers, 0, 0));
    assert Holds(d, b.nextTag, id);
    forall i | i in d.published && i != id ensures i in d.processed || Live(d, i) {
      if i !in b.processed {
        var t :| Holds(b, t, i);
        assert Holds(d, t, i);
      }
    }
  }

  const EMPTY_BROKER := Broker(map[], map[], map[], {}, map[], 0)

  lemma {:induction false} RunKeepsInv(b: Broker, events: seq<Event>, maxRetries: int)
    requires BrokerInv(b, maxRetries)
    ensures BrokerInv(RunBroker(b, events, maxRetries), maxRetries)
    decreases events
  {
    if events != [] {
      StepKeeps(b, events[0], maxRetries);
      RunKeepsInv(StepBroker(b, events[0], maxRetries), events[1..], maxRetries);
    }
  }

  /** In every reachable state each published message was processed or has a live copy; every copy
      carries its publication's unrelated headers; and no queued copy has more retries than the
      maximum unless it was published so. */
  lemma NoMessageLost(events: seq<Event>, maxRetries: int)
    ensures var b := RunBroker(EMPTY_BROKER, events, maxRetries);
            && NothingLost(b)
            && forall t :: t in b.queued ==>
                 && b.queued[t].id in b.published
                 && SameUnrelated(b.queued[t].headers, b.published[b.queued[t].id])
                 && b.queued[t].Count() <= Max(maxRetries, RetryCountFromHeaders(b.published[b.queued[t].id]))
  {
    RunKeepsInv(EMPTY_BROKER, events, maxRetries);
  }

  /** Deliveries along the copy's chain, redeliveries apart: at most one per retry still allowed
      when the message was published, and one more. */
  predicate ChainBounded(c: Copy, published: map<nat, Table>, maxRetries: int) {
    && c.id in published
    && var first := RetryCountFromHeaders(published[c.id]);
       c.deliveries - c.redeliveries <= Max(maxRetries, first) - first + 1
  }

  /** In every reachable state every chain is bounded: a message published without retries is
      delivered at most maxRetries + 1 times unless the broker redelivers it. */
  lemma DeliveriesBounded(events: seq<Event>, maxRetries: int)
    ensures var b := RunBroker(EMPTY_BROKER, events, maxRetries);
            && (forall t :: t in b.queued ==> ChainBounded(b.queued[t], b.published, maxRetries))
            && (forall t :: t in b.unacked ==> ChainBounded(b.unacked[t], b.published, maxRetries))
            && (forall t :: t in b.dead ==> ChainBounded(b.dead[t], b.published, maxRetries))
  {
    RunKeepsInv(EMPTY_BROKER, events, maxRetries);
  }

  /** A failed delivery leaves the unacked set only into the dead-letter queue, or after a copy with
      one more retry and the same unrelated headers was queued. */
  lemma AckedOnlyAfterSuccessor(b: Broker, tag: nat, v: Verdict, maxRetries: int)
    requires tag in b.unacked && TagsFresh(b)
    ensures var c, d := b.unacked[tag], HandleFailure(b, tag, v, maxRetries);
            tag !in d.unacked && tag !in d.dead ==>
              && d.queued.Keys == b.queued.Keys + {b.nextTag}
              && d.queued[b.nextTag].id == c.id
              && d.queued[b.nextTag].Count() == c.Count() + 1
              && SameUnrelated(d.queued[b.nextTag].headers, c.headers)
  {
    HeadersRoundTrip(b.unacked[tag].headers, b.unacked[tag].Count(), v.reason);
  }
}
