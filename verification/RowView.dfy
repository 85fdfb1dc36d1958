/** The ledger as one row sees it: its money, what the pending transactions claim of it, and the
    actions reduced to their claims. */
module RowView {
  import opened TransactionTypes
  import opened Sums
  import opened LedgerEffects

  type Claims = map<string, Claim>

  datatype View = View(money: Money, pending: Claims)

  /** A posting may fall short of the claim that is kept for a held transaction. */
  datatype RowAction =
    | Posting(id: string, claim: Claim, posted: Claim, held: bool, admissible: bool, routed: bool)
    | Closing(id: string, commit: bool, routed: bool)

  function RowStep(v: View, a: RowAction, dir: Direction): View {
    match a
    case Posting(id, claim, posted, held, admissible, routed) =>
      if !admissible || (held && id in v.pending) then v
      else if held then View(v.money.Plus(Move(posted, PENDING, routed, dir)), v.pending[id := claim])
      else View(v.money.Plus(Move(posted, CREATED, routed, dir)), v.pending)
    case Closing(id, commit, routed) =>
      if id !in v.pending then v
      else View(v.money.Plus(Move(v.pending[id], if commit then APPROVED else CANCELED, routed, dir)), v.pending - {id})
  }

  function RowRun(v: View, actions: seq<RowAction>, dir: Direction): View
    decreases actions
  {
    if actions == [] then v else RowRun(RowStep(v, actions[0], dir), actions[1..], dir)
  }

  lemma {:induction false} RowRunAppend(v: View, xs: seq<RowAction>, ys: seq<RowAction>, dir: Direction)
    ensures RowRun(v, xs + ys, dir) == RowRun(RowRun(v, xs, dir), ys, dir)
    decreases xs
  {
    if xs == [] {
      assert xs + ys == ys;
    } else {
      assert (xs + ys)[0] == xs[0] && (xs + ys)[1..] == xs[1..] + ys;
      RowRunAppend(RowStep(v, xs[0], dir), xs[1..], ys, dir);
    }
  }

  // ---------- on hold ----------

  function Sources(pending: Claims): map<string, real> {
    map id | id in pending :: pending[id].source
  }

  ghost function HeldOf(pending: Claims): real {
    Sum(Sources(pending))
  }

  lemma HeldPut(pending: Claims, id: string, c: Claim)
    requires id !in pending
    ensures HeldOf(pending[id := c]) == HeldOf(pending) + c.source
  {
    SumPut(Sources(pending), id, c.source);
    assert Sources(pending[id := c]) == Sources(pending)[id := c.source];
  }

  lemma HeldTake(pending: Claims, id: string)
    requires id in pending
    ensures HeldOf(pending - {id}) == HeldOf(pending) - pending[id].source
  {
    HeldPut(pending - {id}, id, pending[id]);
    assert (pending - {id})[id := pending[id]] == pending;
  }

  /** By how much a step lets OnHold and the held claims drift apart: a hold that posts less than it
      claims, and an unrouted commit on a debit-direction row, which does not release its hold. */
  function Drift(v: View, a: RowAction, dir: Direction): real {
    match a
    case Posting(id, claim, posted, held, admissible, routed) =>
      if held && admissible && id !in v.pending then posted.source - claim.source else 0.0
    case Closing(id, commit, routed) =>
      if commit && !routed && dir == DebitDirection && id in v.pending then v.pending[id].source else 0.0
  }

  lemma StepHeld(v: View, a: RowAction, dir: Direction)
    ensures var w := RowStep(v, a, dir);
            w.money.onHold - HeldOf(w.pending) == v.money.onHold - HeldOf(v.pending) + Drift(v, a, dir)
  {
    match a
    case Posting(id, claim, posted, held, admissible, routed) =>
      if id !in v.pending {
        HeldPut(v.pending, id, claim);
      }
    case Closing(id, commit, routed) =>
      if id in v.pending {
        HeldTake(v.pending, id);
      }
  }

  // ---------- lifecycles around other steps ----------

  predicate Apart(a: RowAction, id: string) {
    a.id != id
  }

  /** v with more money on the row and one more pending transaction. */
  function With(v: View, d: Money, id: string, c: Claim): View {
    View(v.money.Plus(d), v.pending[id := c])
  }

  /** Steps apart from id carry the difference along unchanged: every step is a translation. */
  lemma {:induction false} ApartCarries(v: View, d: Money, id: string, c: Claim, mid: seq<RowAction>, dir: Direction)
    requires id !in v.pending && forall i :: 0 <= i < |mid| ==> Apart(mid[i], id)
    ensures RowRun(With(v, d, id, c), mid, dir) == With(RowRun(v, mid, dir), d, id, c)
    ensures id !in RowRun(v, mid, dir).pending
    decreases mid
  {
    if mid != [] {
      assert Apart(mid[0], id);
      CarryStep(v, d, id, c, mid[0], dir);
      ApartCarries(RowStep(v, mid[0], dir), d, id, c, mid[1..], dir);
    }
  }

  lemma CarryStep(v: View, d: Money, id: string, c: Claim, a: RowAction, dir: Direction)
    requires id !in v.pending && Apart(a, id)
    ensures RowStep(With(v, d, id, c), a, dir) == With(RowStep(v, a, dir), d, id, c)
    ensures id !in RowStep(v, a, dir).pending
  {
    match a
    case Posting(j, claim, posted, held, admissible, routed) =>
      assert v.pending[id := c][j := claim] == v.pending[j := claim][id := c];
    case Closing(j, commit, routed) =>
      assert v.pending[id := c] - {j} == (v.pending - {j})[id := c];
  }

  lemma {:induction false} MoneyCarries(v: View, d: Money, mid: seq<RowAction>, dir: Direction)
    ensures RowRun(v.(money := v.money.Plus(d)), mid, dir) ==
            RowRun(v, mid, dir).(money := RowRun(v, mid, dir).money.Plus(d))
    decreases mid
  {
    if mid != [] {
      MoneyCarries(RowStep(v, mid[0], dir), d, mid[1..], dir);
    }
  }

  /** Hold, any steps of other transactions, then commit or cancel. */
  lemma LifecycleMoves(v: View, id: string, c: Claim, p: Claim, admissible: bool, mid: seq<RowAction>,
                       routed: bool, commit: bool, routedLater: bool, dir: Direction)
    requires id !in v.pending && forall i :: 0 <= i < |mid| ==> Apart(mid[i], id)
    ensures var status := if commit then APPROVED else CANCELED;
            var w := RowRun(v, mid, dir);
            RowRun(v, [Posting(id, c, p, true, admissible, routed)] + mid + [Closing(id, commit, routedLater)], dir) ==
            if !admissible then w
            else w.(money := w.money.Plus(Move(p, PENDING, routed, dir)).Plus(Move(c, status, routedLater, dir)))
  {
    var first, last := Posting(id, c, p, true, admissible, routed), Closing(id, commit, routedLater);
    RowRunAround(v, first, mid, last, dir);
    ApartCarries(v, Move(p, PENDING, routed, dir), id, c, mid, dir);
    var w := RowRun(v, mid, dir);
    assert w.pending[id := c] - {id} == w.pending;
  }

  lemma RowRunAround(v: View, first: RowAction, mid: seq<RowAction>, last: RowAction, dir: Direction)
    ensures RowRun(v, [first] + mid + [last], dir) == RowStep(RowRun(RowStep(v, first, dir), mid, dir), last, dir)
  {
    RowRunAppend(v, [first] + mid, [last], dir);
    RowRunAppend(v, [first], mid, dir);
    RowRunOne(v, first, dir);
    RowRunOne(RowRun(RowStep(v, first, dir), mid, dir), last, dir);
  }

  lemma RowRunOne(v: View, a: RowAction, dir: Direction)
    ensures RowRun(v, [a], dir) == RowStep(v, a, dir)
  {
    assert [a][1..] == [];
  }

  lemma DirectMoves(v: View, id: string, c: Claim, p: Claim, admissible: bool, mid: seq<RowAction>,
                    routed: bool, dir: Direction)
    ensures var w := RowRun(v, mid, dir);
            RowRun(v, [Posting(id, c, p, false, admissible, routed)] + mid, dir) ==
            if !admissible then w else w.(money := w.money.Plus(Move(p, CREATED, routed, dir)))
  {
    var first := Posting(id, c, p, false, admissible, routed);
    RowRunAppend(v, [first], mid, dir);
    RowRunOne(v, first, dir);
    MoneyCarries(v, Move(p, CREATED, routed, dir), mid, dir);
  }

  /** On a row that is not debit-direction, under any mix of route validation, a hold of p committed
      as c amounts to the direct move of p exactly when p is c, and a hold of p canceled as c to
      nothing exactly when they take the same. */
  lemma CreditLifecycle(p: Claim, c: Claim, routed: bool, routedLater: bool, routedDirect: bool, dir: Direction,
                        m: Money)
    requires dir != DebitDirection
    ensures m.Plus(Move(p, PENDING, routed, dir)).Plus(Move(c, APPROVED, routedLater, dir)) ==
              m.Plus(Move(p, CREATED, routedDirect, dir))
            <==> p == c
    ensures m.Plus(Move(p, PENDING, routed, dir)).Plus(Move(c, CANCELED, routedLater, dir)) == m
            <==> p.source == c.source
  {
  }

  /** When a hold of p and its commit as c amount to the direct move of p on a debit-direction row. */
  predicate DebitCommitExact(p: Claim, c: Claim, routed: bool, routedLater: bool) {
    && p.source == (if routedLater then c.source else 0.0)
    && c.destination == (if routedLater then 0.0 else c.source) - (if routed then 0.0 else 2.0 * p.source)
  }

  /** When a hold of p and its cancel as c amount to nothing there. */
  predicate DebitCancelExact(p: Claim, c: Claim, routed: bool, routedLater: bool) {
    && p.source == c.source
    && p.destination + c.destination ==
       if routed == routedLater then 0.0 else if routed then 2.0 * c.source else -2.0 * c.source
  }

  lemma DebitLifecycle(p: Claim, c: Claim, routed: bool, routedLater: bool, m: Money)
    ensures m.Plus(Move(p, PENDING, routed, DebitDirection)).Plus(Move(c, APPROVED, routedLater, DebitDirection)) ==
              m.Plus(Move(p, CREATED, routed, DebitDirection))
            <==> DebitCommitExact(p, c, routed, routedLater)
    ensures m.Plus(Move(p, PENDING, routed, DebitDirection)).Plus(Move(c, CANCELED, routedLater, DebitDirection)) == m
            <==> DebitCancelExact(p, c, routed, routedLater)
  {
  }

  /** With nothing missing and no negative claims: commit completes the direct move exactly when
      nothing arrives and both steps are routed or nothing is taken; cancel restores the row exactly
      when nothing arrives and both steps use one setting, or the two errors cancel out. */
  lemma DebitExactPlain(c: Claim, routed: bool, routedLater: bool)
    requires c.source >= 0.0 && c.destination >= 0.0
    ensures DebitCommitExact(c, c, routed, routedLater) <==>
            c.destination == 0.0 && ((routed && routedLater) || c.source == 0.0)
    ensures DebitCancelExact(c, c, routed, routedLater) <==>
            if routed == routedLater then c.destination == 0.0
            else if routed then c.destination == c.source
            else c.destination == 0.0 && c.source == 0.0
  {
  }
}
