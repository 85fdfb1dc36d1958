/** Laws of whole runs: any interleaving of direct transactions, holds, commits and cancels, each
    step under either setting of route validation. */
module LedgerRuns {
  import opened TransactionTypes
  import opened Aliases
  import opened Sums
  import opened Resolver
  import opened SendValidation
  import opened Reresolution
  import opened LedgerModel
  import opened LedgerEffects
  import opened RowView

  /** Every pending transaction was created as a hold and can still be posted. */
  ghost predicate Consistent(s: State) {
    forall id :: id in s.pending ==>
      s.pending[id].pending && WellFormed(s.pending[id]) && Admissible(s.rows.Keys, s.pending[id])
  }

  function ClaimsOn(pending: map<string, Transaction>, row: string): Claims {
    map id | id in pending :: ClaimOn(pending[id], row)
  }

  function ViewOf(s: State, row: string): View
    requires row in s.rows
  {
    View(MoneyOf(s.rows[row]), ClaimsOn(s.pending, row))
  }

  /** An action as one row sees it. */
  ghost function Project(keys: set<string>, row: string, a: Action): RowAction {
    match a
    case Create(id, tx, routed) =>
      Posting(id, ClaimOn(tx, row), PostedOn(tx, row), tx.pending, Creatable(keys, tx), routed)
    case Commit(id, routed) => Closing(id, true, routed)
    case Cancel(id, routed) => Closing(id, false, routed)
  }

  ghost function ProjectAll(keys: set<string>, row: string, actions: seq<Action>): (r: seq<RowAction>)
    ensures |r| == |actions|
    ensures forall i :: 0 <= i < |actions| ==> r[i] == Project(keys, row, actions[i])
  {
    seq(|actions|, i requires 0 <= i < |actions| => Project(keys, row, actions[i]))
  }

  // ---------- the row view is faithful ----------

  lemma PendingMore(pending: map<string, Transaction>, id: string, tx: Transaction, row: string)
    requires WellFormed(tx) && TameTransaction(tx)
    ensures ClaimsOn(pending[id := Body(tx)], row) == ClaimsOn(pending, row)[id := ClaimOn(tx, row)]
  {
    BodyClaims(tx, row);
  }

  predicate Taken(s: State, id: string, tx: Transaction) {
    tx.pending && id in s.pending
  }

  lemma CreateRejected(s: State, id: string, tx: Transaction, routed: bool)
    requires Taken(s, id, tx) || !Creatable(s.rows.Keys, tx)
    ensures After(s, Create(id, tx, routed)) == s
  {
    if WellFormed(tx) {
      PostAgainAcceptedIff(s.rows, tx, routed);
    }
  }

  /** Which state an accepted creation leads to. */
  lemma CreatedState(s: State, id: string, tx: Transaction, routed: bool)
    requires Creatable(s.rows.Keys, tx) && !Taken(s, id, tx)
    ensures PostAgain(s.rows, tx, routed).Ok?
    ensures After(s, Create(id, tx, routed)) ==
            State(PostAgain(s.rows, tx, routed).value, if tx.pending then s.pending[id := Body(tx)] else s.pending)
  {
    PostAgainAcceptedIff(s.rows, tx, routed);
  }

  lemma StillConsistent(s: State, t: State, id: string, tx: Transaction)
    requires Consistent(s) && Creatable(s.rows.Keys, tx) && t.rows.Keys == s.rows.Keys
    requires t.pending == (if tx.pending then s.pending[id := Body(tx)] else s.pending)
    ensures Consistent(t)
  {
    BodyIs(s.rows.Keys, tx);
  }

  lemma CreateAccepted(s: State, id: string, tx: Transaction, routed: bool, row: string)
    requires Consistent(s) && row in s.rows && Creatable(s.rows.Keys, tx) && !Taken(s, id, tx)
    ensures var t, dir := After(s, Create(id, tx, routed)), s.rows[row].direction;
            && t.rows.Keys == s.rows.Keys && t.rows[row].direction == dir
            && MoneyOf(t.rows[row]) ==
                 MoneyOf(s.rows[row]).Plus(Move(PostedOn(tx, row), tx.InitialStatus(), routed, dir))
            && t.pending == (if tx.pending then s.pending[id := Body(tx)] else s.pending)
            && Consistent(t)
  {
    CreatedState(s, id, tx, routed);
    PostAgainEffect(s.rows, tx, routed, row);
    StillConsistent(s, After(s, Create(id, tx, routed)), id, tx);
  }

  lemma CreateIs(s: State, id: string, tx: Transaction, routed: bool, row: string)
    requires Consistent(s) && row in s.rows
    ensures var t, a := After(s, Create(id, tx, routed)), Create(id, tx, routed);
            && t.rows.Keys == s.rows.Keys && t.rows[row].direction == s.rows[row].direction
            && ViewOf(t, row) == RowStep(ViewOf(s, row), Project(s.rows.Keys, row, a), s.rows[row].direction)
            && Consistent(t)
  {
    if Taken(s, id, tx) || !Creatable(s.rows.Keys, tx) {
      CreateRejected(s, id, tx, routed);
    } else {
      CreateAccepted(s, id, tx, routed, row);
      PendingMore(s.pending, id, tx, row);
    }
  }

  ghost predicate Ambiguous(tx: Transaction) {
    exists i :: AmbiguousAt(tx, i)
  }

  predicate Balances(tx: Transaction) {
    Total(tx.from, tx.value) == tx.value == Total(tx.to, tx.value)
  }

  predicate BothKnown(keys: set<string>, tx: Transaction) {
    RowsKnown(keys, tx.from) && RowsKnown(keys, tx.to)
  }

  /** Why a creation is rejected, or None: the checks in the order in which they are made. */
  ghost function Rejection(s: State, id: string, tx: Transaction): Option<Error> {
    if !WellFormed(tx) || Taken(s, id, tx) then Some(InvalidInput)
    else if tx.value <= 0.0 then Some(NonPositiveValue)
    else if !Balances(tx) then Some(TransactionValueMismatch)
    else if Ambiguous(tx) then Some(TransactionAmbiguous)
    else if !TameTransaction(tx) then Some(TransactionValueMismatch)
    else if !BothKnown(s.rows.Keys, tx) then Some(AccountIneligibility)
    else None
  }

  lemma SecondOutcome(rows: Rows, tx: Transaction, routed: bool)
    requires WellFormed(tx) && Balances(tx)
    ensures var p := Post(rows, Again(tx, tx.InitialStatus()), tx.InitialStatus(), routed);
            if Ambiguous(tx) then p == Err(TransactionAmbiguous)
            else if !TameTransaction(tx) then p == Err(TransactionValueMismatch)
            else p.Ok? || p == Err(AccountIneligibility)
  {
    var status := tx.InitialStatus();
    RawAcceptedIff(tx, status);
    AgainShaped(tx, status);
    SecondFindsAmbiguity(tx, status);
    SecondAccepted(tx, status);
    RejectedIff(Again(tx, status), status);
  }

  /** The error a creation reports, from the raw input and the existing rows. */
  lemma CreateOutcome(s: State, id: string, tx: Transaction, routed: bool)
    ensures match Rejection(s, id, tx)
            case Some(e) => Step(s, Create(id, tx, routed)) == Err(e)
            case None => Step(s, Create(id, tx, routed)).Ok?
  {
    if WellFormed(tx) && !Taken(s, id, tx) {
      PostAgainOutcome(s, id, tx, routed);
    }
  }

  /** The first validation alone decides the balance. */
  lemma FirstOutcome(rows: Rows, tx: Transaction, routed: bool)
    requires Shaped(tx) && tx.value > 0.0
    ensures PostAgain(rows, tx, routed) ==
            if Balances(tx) then Post(rows, Again(tx, tx.InitialStatus()), tx.InitialStatus(), routed)
            else Err(TransactionValueMismatch)
  {
    RawAcceptedIff(tx, tx.InitialStatus());
  }

  lemma SecondOk(rows: Rows, tx: Transaction, routed: bool)
    requires WellFormed(tx) && tx.value > 0.0 && Balances(tx)
    ensures PostAgain(rows, tx, routed).Ok? <==> !Ambiguous(tx) && TameTransaction(tx) && BothKnown(rows.Keys, tx)
  {
    PostAgainAcceptedIff(rows, tx, routed);
  }

  lemma LateOutcome(s: State, id: string, tx: Transaction, routed: bool)
    requires WellFormed(tx) && !Taken(s, id, tx) && tx.value > 0.0 && Balances(tx)
    ensures match Rejection(s, id, tx)
            case Some(e) => PostAgain(s.rows, tx, routed) == Err(e)
            case None => PostAgain(s.rows, tx, routed).Ok?
  {
    FirstOutcome(s.rows, tx, routed);
    SecondOutcome(s.rows, tx, routed);
    SecondOk(s.rows, tx, routed);
  }

  lemma PostAgainOutcome(s: State, id: string, tx: Transaction, routed: bool)
    requires WellFormed(tx) && !Taken(s, id, tx)
    ensures match Rejection(s, id, tx)
            case Some(e) => PostAgain(s.rows, tx, routed) == Err(e)
            case None => PostAgain(s.rows, tx, routed).Ok?
  {
    if tx.value > 0.0 {
      FirstOutcome(s.rows, tx, routed);
      if Balances(tx) {
        LateOutcome(s, id, tx, routed);
      }
    }
  }

  /** Which state closing a pending transaction leads to. */
  lemma ClosedState(s: State, id: string, status: Status, routed: bool)
    requires Consistent(s) && id in s.pending
    ensures Post(s.rows, s.pending[id], status, routed).Ok?
    ensures Close(s, id, status, routed) ==
            Ok(State(Post(s.rows, s.pending[id], status, routed).value, s.pending - {id}))
  {
    PostAcceptedIff(s.rows, s.pending[id], status, routed);
  }

  lemma FewerConsistent(s: State, t: State, id: string)
    requires Consistent(s) && t.rows.Keys == s.rows.Keys && t.pending == s.pending - {id}
    ensures Consistent(t)
  {
  }

  lemma PendingFewer(pending: map<string, Transaction>, id: string, row: string)
    ensures ClaimsOn(pending - {id}, row) == ClaimsOn(pending, row) - {id}
  {
  }

  lemma CloseMoney(s: State, t: State, id: string, status: Status, routed: bool, row: string)
    requires Consistent(s) && row in s.rows && status in {APPROVED, CANCELED} && id in s.pending
    requires Close(s, id, status, routed) == Ok(t)
    ensures && t.rows.Keys == s.rows.Keys && t.rows[row].direction == s.rows[row].direction
            && MoneyOf(t.rows[row]) ==
                 MoneyOf(s.rows[row]).Plus(Move(ClaimOn(s.pending[id], row), status, routed, s.rows[row].direction))
  {
    ClosedState(s, id, status, routed);
    PostEffect(s.rows, s.pending[id], status, routed, row);
  }

  /** Closing a pending transaction is never rejected; closing any other one always is. */
  lemma CloseIs(s: State, id: string, status: Status, routed: bool, row: string)
    requires Consistent(s) && row in s.rows && status in {APPROVED, CANCELED}
    ensures Close(s, id, status, routed).Ok? <==> id in s.pending
    ensures id !in s.pending ==> Close(s, id, status, routed) == Err(TransactionNotPending)
    ensures id in s.pending ==>
      var t := Close(s, id, status, routed).value;
      && t.rows.Keys == s.rows.Keys && t.rows[row].direction == s.rows[row].direction
      && MoneyOf(t.rows[row]) ==
           MoneyOf(s.rows[row]).Plus(Move(ClaimOn(s.pending[id], row), status, routed, s.rows[row].direction))
      && ClaimsOn(t.pending, row) == ClaimsOn(s.pending, row) - {id}
      && Consistent(t)
  {
    if id in s.pending {
      ClosedState(s, id, status, routed);
      var t := Close(s, id, status, routed).value;
      CloseMoney(s, t, id, status, routed, row);
      PendingFewer(s.pending, id, row);
      FewerConsistent(s, t, id);
    }
  }

  lemma StepIs(s: State, a: Action, row: string)
    requires Consistent(s) && row in s.rows
    ensures var t := After(s, a);
            && t.rows.Keys == s.rows.Keys && t.rows[row].direction == s.rows[row].direction
            && ViewOf(t, row) == RowStep(ViewOf(s, row), Project(s.rows.Keys, row, a), s.rows[row].direction)
            && Consistent(t)
  {
    match a
    case Create(id, tx, routed) => CreateIs(s, id, tx, routed, row);
    case Commit(id, routed) => CloseIs(s, id, APPROVED, routed, row);
    case Cancel(id, routed) => CloseIs(s, id, CANCELED, routed, row);
  }

  /** The final state of any run, seen from any row, is the row's own run. */
  lemma {:induction false} RunIs(s: State, actions: seq<Action>, row: string)
    requires Consistent(s) && row in s.rows
    ensures var t := Run(s, actions);
            && t.rows.Keys == s.rows.Keys && t.rows[row].direction == s.rows[row].direction
            && ViewOf(t, row) ==
                 RowRun(ViewOf(s, row), ProjectAll(s.rows.Keys, row, actions), s.rows[row].direction)
            && Consistent(t)
    decreases actions
  {
    if actions != [] {
      StepIs(s, actions[0], row);
      RunIs(After(s, actions[0]), actions[1..], row);
      assert ProjectAll(s.rows.Keys, row, actions)[1..] == ProjectAll(s.rows.Keys, row, actions[1..]);
    }
  }

  // ---------- what is on hold ----------

  /** The source amounts of the transactions pending on a row. */
  ghost function Held(pending: map<string, Transaction>, row: string): real {
    HeldOf(ClaimsOn(pending, row))
  }

  /** A hold that is accepted although the row's own entry is worth less than it claims. */
  ghost predicate ShortHold(s: State, a: Action, row: string) {
    && a.Create? && a.tx.pending && a.id !in s.pending && Creatable(s.rows.Keys, a.tx)
    && Shortfall(a.tx.from, a.tx.value, row) > 0.0
  }

  /** An unrouted commit that leaves a claim on hold, on a debit-direction row. */
  predicate Unreleased(s: State, a: Action, row: string) {
    && a.Commit? && !a.routed && a.id in s.pending
    && row in s.rows && s.rows[row].direction == DebitDirection
    && SourceOn(s.pending[a.id], row) != 0.0
  }

  /** What a step adds to OnHold beyond the claims of the pending transactions. */
  ghost function StepDrift(s: State, a: Action, row: string): real {
    if ShortHold(s, a, row) then -Shortfall(a.tx.from, a.tx.value, row)
    else if Unreleased(s, a, row) then SourceOn(s.pending[a.id], row)
    else 0.0
  }

  ghost function RunDrift(s: State, actions: seq<Action>, row: string): real
    decreases actions
  {
    if actions == [] then 0.0 else StepDrift(s, actions[0], row) + RunDrift(After(s, actions[0]), actions[1..], row)
  }

  lemma StepDriftIs(s: State, a: Action, row: string)
    requires row in s.rows
    ensures Drift(ViewOf(s, row), Project(s.rows.Keys, row, a), s.rows[row].direction) == StepDrift(s, a, row)
  {
  }

  lemma {:induction false} RunHeld(s: State, actions: seq<Action>, row: string)
    requires Consistent(s) && row in s.rows
    ensures var t := Run(s, actions);
            && row in t.rows
            && t.rows[row].onHold - Held(t.pending, row) ==
               s.rows[row].onHold - Held(s.pending, row) + RunDrift(s, actions, row)
    decreases actions
  {
    if actions != [] {
      StepIs(s, actions[0], row);
      StepDriftIs(s, actions[0], row);
      StepHeld(ViewOf(s, row), Project(s.rows.Keys, row, actions[0]), s.rows[row].direction);
      RunHeld(After(s, actions[0]), actions[1..], row);
    }
  }

  /** In every reachable state, on rows of every direction, a row's OnHold is exactly its initial
      OnHold, plus the source amounts of the transactions pending on it, less the positive remainders
      of the holds on it, plus the claims that unrouted commits did not release. */
  lemma OnHoldExact(rows: Rows, actions: seq<Action>, row: string)
    requires row in rows
    ensures var s := State(rows, map[]);
            var t := Run(s, actions);
            && row in t.rows
            && t.rows[row].onHold == rows[row].onHold + Held(t.pending, row) + RunDrift(s, actions, row)
  {
    var s := State(rows, map[]);
    RunHeld(s, actions, row);
    assert Sources(ClaimsOn(s.pending, row)) == map[];
  }

  ghost predicate NoShortHolds(s: State, actions: seq<Action>, row: string)
    decreases actions
  {
    actions != [] ==> !ShortHold(s, actions[0], row) && NoShortHolds(After(s, actions[0]), actions[1..], row)
  }

  ghost predicate AllReleased(s: State, actions: seq<Action>, row: string)
    decreases actions
  {
    actions != [] ==> !Unreleased(s, actions[0], row) && AllReleased(After(s, actions[0]), actions[1..], row)
  }

  lemma {:induction false} CreditDrift(s: State, actions: seq<Action>, row: string)
    requires Consistent(s) && row in s.rows && s.rows[row].direction != DebitDirection
    ensures RunDrift(s, actions, row) <= 0.0
    ensures RunDrift(s, actions, row) == 0.0 <==> NoShortHolds(s, actions, row)
    decreases actions
  {
    if actions != [] {
      StepIs(s, actions[0], row);
      CreditDrift(After(s, actions[0]), actions[1..], row);
    }
  }

  /** On a row that is not debit-direction, OnHold is its initial value plus the source amounts of
      the transactions pending on it exactly when no hold along the run had a positive remainder
      there; in every interleaving, legacy or routed. */
  lemma OnHoldInvariant(rows: Rows, actions: seq<Action>, row: string)
    requires row in rows && rows[row].direction != DebitDirection
    ensures var s := State(rows, map[]);
            var t := Run(s, actions);
            && row in t.rows
            && (t.rows[row].onHold == rows[row].onHold + Held(t.pending, row) <==> NoShortHolds(s, actions, row))
  {
    OnHoldExact(rows, actions, row);
    CreditDrift(State(rows, map[]), actions, row);
  }

  /** The explicit contributions of the sources are non-negative and do not exceed the send value. */
  predicate SourcesNonNegative(tx: Transaction) {
    Monotone(tx.from, tx.value) && Left(tx.from, tx.value) >= 0.0
  }

  predicate HoldsNonNegative(actions: seq<Action>) {
    forall i :: 0 <= i < |actions| && actions[i].Create? && actions[i].tx.pending ==> SourcesNonNegative(actions[i].tx)
  }

  lemma {:induction false} SumWhereNonNegative(es: Entries, send: real, selected: seq<bool>)
    requires |selected| == |es| && Monotone(es, send) && Left(es, send) >= 0.0
    requires forall i :: 0 <= i < |es| ==> OneKind(es[i])
    ensures SumWhere(es, send, selected) >= 0.0
  {
    if es != [] {
      assert Explicit(Last(es), send) >= 0.0 && OneKind(Last(es));
      SumWhereNonNegative(Init(es), send, Init(selected));
    }
  }

  predicate ClaimsNonNegative(s: State, row: string) {
    forall id :: id in s.pending ==> SourceOn(s.pending[id], row) >= 0.0
  }

  lemma StepNonNegative(s: State, a: Action, row: string)
    requires Consistent(s) && row in s.rows && ClaimsNonNegative(s, row)
    requires a.Create? && a.tx.pending ==> SourcesNonNegative(a.tx)
    ensures ClaimsNonNegative(After(s, a), row)
  {
    match a
    case Create(id, tx, routed) =>
      if Taken(s, id, tx) || !Creatable(s.rows.Keys, tx) {
        CreateRejected(s, id, tx, routed);
      } else {
        CreateAccepted(s, id, tx, routed, row);
        BodyClaims(tx, row);
        if tx.pending {
          SumWhereNonNegative(tx.from, tx.value, RowPicks(tx.from, row));
        }
      }
    case Commit(id, routed) =>
    case Cancel(id, routed) =>
  }

  lemma {:induction false} ReleaseDrift(s: State, actions: seq<Action>, row: string)
    requires Consistent(s) && row in s.rows && ClaimsNonNegative(s, row) && HoldsNonNegative(actions)
    requires NoShortHolds(s, actions, row)
    ensures RunDrift(s, actions, row) >= 0.0 && ClaimsNonNegative(Run(s, actions), row)
    ensures RunDrift(s, actions, row) == 0.0 <==> AllReleased(s, actions, row)
    decreases actions
  {
    if actions != [] {
      StepIs(s, actions[0], row);
      StepNonNegative(s, actions[0], row);
      ReleaseDrift(After(s, actions[0]), actions[1..], row);
    }
  }

  /** On a row of any direction, when no hold there is short and no claim is negative: the same law
      holds exactly when no unrouted commit left a claim of a debit-direction row on hold. */
  lemma OnHoldInvariantAnyDirection(rows: Rows, actions: seq<Action>, row: string)
    requires row in rows && HoldsNonNegative(actions) && NoShortHolds(State(rows, map[]), actions, row)
    ensures var s := State(rows, map[]);
            var t := Run(s, actions);
            && row in t.rows
            && (t.rows[row].onHold == rows[row].onHold + Held(t.pending, row) <==> AllReleased(s, actions, row))
  {
    OnHoldExact(rows, actions, row);
    ReleaseDrift(State(rows, map[]), actions, row);
  }

  /** Then OnHold never becomes negative on a row that did not start so. */
  lemma OnHoldNonNegative(rows: Rows, actions: seq<Action>, row: string)
    requires row in rows && rows[row].onHold >= 0.0
    requires HoldsNonNegative(actions) && NoShortHolds(State(rows, map[]), actions, row)
    ensures row in Run(State(rows, map[]), actions).rows
    ensures Run(State(rows, map[]), actions).rows[row].onHold >= 0.0
  {
    OnHoldExact(rows, actions, row);
    ReleaseDrift(State(rows, map[]), actions, row);
    SumNonNegative(Sources(ClaimsOn(Run(State(rows, map[]), actions).pending, row)));
  }

  // ---------- lifecycles around other steps ----------

  /** The same transaction, not held. */
  function Direct(tx: Transaction): Transaction {
    tx.(pending := false)
  }

  lemma DirectCreatable(keys: set<string>, tx: Transaction)
    ensures Creatable(keys, Direct(tx)) == Creatable(keys, tx)
  {
    assert forall i :: AmbiguousAt(Direct(tx), i) == AmbiguousAt(tx, i);
  }

  predicate ApartFrom(actions: seq<Action>, id: string) {
    forall i :: 0 <= i < |actions| ==> actions[i].id != id
  }

  lemma ProjectConcat(keys: set<string>, row: string, xs: seq<Action>, ys: seq<Action>)
    ensures ProjectAll(keys, row, xs + ys) == ProjectAll(keys, row, xs) + ProjectAll(keys, row, ys)
  {
    forall i | 0 <= i < |xs + ys|
      ensures ProjectAll(keys, row, xs + ys)[i] == (ProjectAll(keys, row, xs) + ProjectAll(keys, row, ys))[i]
    {
    }
  }

  lemma ProjectLifecycle(keys: set<string>, row: string, first: Action, mid: seq<Action>, last: Action)
    ensures ProjectAll(keys, row, [first] + mid) == [Project(keys, row, first)] + ProjectAll(keys, row, mid)
    ensures ProjectAll(keys, row, [first] + mid + [last]) ==
            [Project(keys, row, first)] + ProjectAll(keys, row, mid) + [Project(keys, row, last)]
  {
    ProjectConcat(keys, row, [first], mid);
    ProjectConcat(keys, row, [first] + mid, [last]);
    assert ProjectAll(keys, row, [first]) == [Project(keys, row, first)];
    assert ProjectAll(keys, row, [last]) == [Project(keys, row, last)];
  }

  /** The run of a lifecycle, projected. */
  lemma LifecycleProjected(s: State, hold: Action, mid: seq<Action>, close: Action, row: string)
    requires Consistent(s) && row in s.rows
    ensures row in Run(s, mid).rows && row in Run(s, [hold] + mid + [close]).rows
    ensures var keys, dir := s.rows.Keys, s.rows[row].direction;
            && ViewOf(Run(s, mid), row) == RowRun(ViewOf(s, row), ProjectAll(keys, row, mid), dir)
            && ViewOf(Run(s, [hold] + mid + [close]), row) ==
               RowRun(ViewOf(s, row),
                      [Project(keys, row, hold)] + ProjectAll(keys, row, mid) + [Project(keys, row, close)], dir)
  {
    RunIs(s, mid, row);
    RunIs(s, [hold] + mid + [close], row);
    ProjectLifecycle(s.rows.Keys, row, hold, mid, close);
  }

  /** A hold, any steps of other transactions, then its commit or cancel: on every row, the money of
      the other steps alone, plus the move of what the hold posts and the move of what is claimed. */
  lemma LifecycleIs(s: State, id: string, tx: Transaction, mid: seq<Action>, row: string, routed: bool, close: Action)
    requires Consistent(s) && row in s.rows && tx.pending && id !in s.pending && ApartFrom(mid, id)
    requires !close.Create? && close.id == id
    ensures row in Run(s, mid).rows && row in Run(s, [Create(id, tx, routed)] + mid + [close]).rows
    ensures var dir, status := s.rows[row].direction, if close.Commit? then APPROVED else CANCELED;
            var w, p, c := ViewOf(Run(s, mid), row), PostedOn(tx, row), ClaimOn(tx, row);
            ViewOf(Run(s, [Create(id, tx, routed)] + mid + [close]), row) ==
            if !Creatable(s.rows.Keys, tx) then w
            else w.(money := w.money.Plus(Move(p, PENDING, routed, dir)).Plus(Move(c, status, close.routed, dir)))
  {
    LifecycleProjected(s, Create(id, tx, routed), mid, close, row);
    LifecycleMoves(ViewOf(s, row), id, ClaimOn(tx, row), PostedOn(tx, row), Creatable(s.rows.Keys, tx),
                   ProjectAll(s.rows.Keys, row, mid), routed, close.Commit?, close.routed, s.rows[row].direction);
  }

  /** A direct creation, projected: it posts and claims what the held one would. */
  lemma DirectProjected(s: State, id: string, tx: Transaction, mid: seq<Action>, row: string, routed: bool)
    requires Consistent(s) && row in s.rows
    ensures var keys, dir, direct := s.rows.Keys, s.rows[row].direction, Create(id, Direct(tx), routed);
            && row in Run(s, mid).rows && row in Run(s, [direct] + mid).rows
            && ViewOf(Run(s, mid), row) == RowRun(ViewOf(s, row), ProjectAll(keys, row, mid), dir)
            && ViewOf(Run(s, [direct] + mid), row) ==
               RowRun(ViewOf(s, row), [Project(keys, row, direct)] + ProjectAll(keys, row, mid), dir)
  {
    var direct := Create(id, Direct(tx), routed);
    RunIs(s, mid, row);
    RunIs(s, [direct] + mid, row);
    ProjectLifecycle(s.rows.Keys, row, direct, mid, direct);
  }

  lemma DirectAction(keys: set<string>, row: string, id: string, tx: Transaction, routed: bool)
    ensures Project(keys, row, Create(id, Direct(tx), routed)) ==
            Posting(id, ClaimOn(tx, row), PostedOn(tx, row), false, Creatable(keys, tx), routed)
  {
    DirectCreatable(keys, tx);
  }

  lemma DirectIs(s: State, id: string, tx: Transaction, mid: seq<Action>, row: string, routed: bool)
    requires Consistent(s) && row in s.rows
    ensures row in Run(s, mid).rows && row in Run(s, [Create(id, Direct(tx), routed)] + mid).rows
    ensures var w := ViewOf(Run(s, mid), row);
            ViewOf(Run(s, [Create(id, Direct(tx), routed)] + mid), row) ==
            if !Creatable(s.rows.Keys, tx) then w
            else w.(money := w.money.Plus(Move(PostedOn(tx, row), CREATED, routed, s.rows[row].direction)))
  {
    var keys := s.rows.Keys;
    DirectProjected(s, id, tx, mid, row, routed);
    DirectAction(keys, row, id, tx, routed);
    DirectMoves(ViewOf(s, row), id, ClaimOn(tx, row), PostedOn(tx, row), Creatable(keys, tx),
                ProjectAll(keys, row, mid), routed, s.rows[row].direction);
  }

  /** A direct creation moves a row, of any direction, by what its entries claim exactly when both
      sides miss the same there: no positive remainder, or two that cancel out. */
  lemma DirectMeetsClaim(s: State, id: string, tx: Transaction, row: string, routed: bool)
    requires Consistent(s) && row in s.rows && Creatable(s.rows.Keys, tx) && !tx.pending
    ensures var t, dir := After(s, Create(id, tx, routed)), s.rows[row].direction;
            && row in t.rows
            && (MoneyOf(t.rows[row]) == MoneyOf(s.rows[row]).Plus(Move(ClaimOn(tx, row), CREATED, routed, dir)) <==>
                Shortfall(tx.from, tx.value, row) == Shortfall(tx.to, tx.value, row))
  {
    CreateAccepted(s, id, tx, routed, row);
  }

  /** Two states that agree on a row: its money and what is pending on it. */
  ghost predicate Agree(a: State, b: State, row: string) {
    row in a.rows && row in b.rows && ViewOf(a, row) == ViewOf(b, row)
  }

  /** Neither side's remainder is lost on the row. */
  predicate Whole(tx: Transaction, row: string) {
    Shortfall(tx.from, tx.value, row) == 0.0 && Shortfall(tx.to, tx.value, row) == 0.0
  }

  /** Hold then commit, around any steps of other transactions and under any mix of route
      validation, leaves a row that is not debit-direction with the money of the direct transaction,
      and with the same claims pending on it, exactly when no side has a positive remainder there. */
  lemma HoldCommitIsDirect(s: State, id: string, tx: Transaction, mid: seq<Action>, row: string,
                           routed: bool, routedLater: bool, j: string, routedDirect: bool)
    requires Consistent(s) && row in s.rows && s.rows[row].direction != DebitDirection
    requires tx.pending && id !in s.pending && ApartFrom(mid, id)
    ensures Agree(Run(s, [Create(id, tx, routed)] + mid + [Commit(id, routedLater)]),
                  Run(s, [Create(j, Direct(tx), routedDirect)] + mid), row)
            <==> (Creatable(s.rows.Keys, tx) ==> Whole(tx, row))
  {
    LifecycleIs(s, id, tx, mid, row, routed, Commit(id, routedLater));
    DirectIs(s, j, tx, mid, row, routedDirect);
    CreditLifecycle(PostedOn(tx, row), ClaimOn(tx, row), routed, routedLater, routedDirect, s.rows[row].direction,
                    ViewOf(Run(s, mid), row).money);
  }

  /** What is left on such a row after hold and commit: OnHold short by the row's positive remainder. */
  lemma CommitLeaves(s: State, id: string, tx: Transaction, mid: seq<Action>, row: string, routed: bool, close: Action)
    requires Consistent(s) && row in s.rows && s.rows[row].direction != DebitDirection
    requires tx.pending && id !in s.pending && ApartFrom(mid, id) && Creatable(s.rows.Keys, tx)
    requires close.Commit? && close.id == id
    ensures var t, w := Run(s, [Create(id, tx, routed)] + mid + [close]), Run(s, mid);
            && row in t.rows && row in w.rows
            && t.rows[row].onHold == w.rows[row].onHold - Shortfall(tx.from, tx.value, row)
            && t.rows[row].available == w.rows[row].available - PostedOn(tx, row).source + DestinationOn(tx, row)
  {
    LifecycleIs(s, id, tx, mid, row, routed, close);
  }

  /** Hold then cancel leaves such a row as if the transaction had never been created exactly when
      its sources have no positive remainder there. */
  lemma HoldCancelRestores(s: State, id: string, tx: Transaction, mid: seq<Action>, row: string,
                           routed: bool, routedLater: bool)
    requires Consistent(s) && row in s.rows && s.rows[row].direction != DebitDirection
    requires tx.pending && id !in s.pending && ApartFrom(mid, id)
    ensures Agree(Run(s, [Create(id, tx, routed)] + mid + [Cancel(id, routedLater)]), Run(s, mid), row)
            <==> (Creatable(s.rows.Keys, tx) ==> Shortfall(tx.from, tx.value, row) == 0.0)
  {
    LifecycleIs(s, id, tx, mid, row, routed, Cancel(id, routedLater));
    CreditLifecycle(PostedOn(tx, row), ClaimOn(tx, row), routed, routedLater, false, s.rows[row].direction,
                    ViewOf(Run(s, mid), row).money);
  }

  predicate NoDebitRows(rows: Rows) {
    forall k :: k in rows ==> rows[k].direction != DebitDirection
  }

  /** A positive remainder is missing on some row, and nothing is missing without one. */
  lemma RemainderRow(keys: set<string>, es: Entries, send: real)
    requires RowsKnown(keys, es)
    ensures PositiveRemainder(es, send) == 0.0 <==> forall row :: row in keys ==> Shortfall(es, send, row) == 0.0
  {
    if HasRemaining(es) {
      var i :| 0 <= i < |es| && es[i].remaining;
      var row := AliasKey(es[i].accountAlias, es[i].balanceKey);
      assert Contributes(es[i]) && row in keys;
      assert RemainingOn(es, row);
    } else {
      assert forall row :: !RemainingOn(es, row);
    }
  }

  /** The two lifecycle laws on the whole ledger, as the handlers run them: they hold on every row
      exactly when no side of the transaction has a positive remainder, and for cancel when its
      sources have none. */
  lemma LifecycleLawsIff(s: State, id: string, tx: Transaction, mid: seq<Action>,
                         routed: bool, routedLater: bool, j: string, routedDirect: bool)
    requires Consistent(s) && NoDebitRows(s.rows) && Creatable(s.rows.Keys, tx)
    requires tx.pending && id !in s.pending && ApartFrom(mid, id)
    ensures var held := Run(s, [Create(id, tx, routed)] + mid + [Commit(id, routedLater)]);
            var direct := Run(s, [Create(j, Direct(tx), routedDirect)] + mid);
            (forall row :: row in s.rows ==> Agree(held, direct, row)) <==>
            PositiveRemainder(tx.from, tx.value) == 0.0 && PositiveRemainder(tx.to, tx.value) == 0.0
    ensures var canceled := Run(s, [Create(id, tx, routed)] + mid + [Cancel(id, routedLater)]);
            (forall row :: row in s.rows ==> Agree(canceled, Run(s, mid), row)) <==>
            PositiveRemainder(tx.from, tx.value) == 0.0
  {
    var held := Run(s, [Create(id, tx, routed)] + mid + [Commit(id, routedLater)]);
    var direct := Run(s, [Create(j, Direct(tx), routedDirect)] + mid);
    var canceled, without := Run(s, [Create(id, tx, routed)] + mid + [Cancel(id, routedLater)]), Run(s, mid);
    RemainderRow(s.rows.Keys, tx.from, tx.value);
    RemainderRow(s.rows.Keys, tx.to, tx.value);
    forall row | row in s.rows
      ensures Agree(held, direct, row) <==> Whole(tx, row)
      ensures Agree(canceled, without, row) <==> Shortfall(tx.from, tx.value, row) == 0.0
    {
      HoldCommitIsDirect(s, id, tx, mid, row, routed, routedLater, j, routedDirect);
      HoldCancelRestores(s, id, tx, mid, row, routed, routedLater);
    }
  }

  /** A debit-direction row: the exact condition under which hold-then-commit matches the direct
      transaction. */
  lemma DebitRowCommit(s: State, id: string, tx: Transaction, mid: seq<Action>, row: string,
                       routed: bool, routedLater: bool, j: string)
    requires Consistent(s) && row in s.rows && s.rows[row].direction == DebitDirection
    requires tx.pending && id !in s.pending && ApartFrom(mid, id) && Creatable(s.rows.Keys, tx)
    ensures Agree(Run(s, [Create(id, tx, routed)] + mid + [Commit(id, routedLater)]),
                  Run(s, [Create(j, Direct(tx), routed)] + mid), row)
            <==> DebitCommitExact(PostedOn(tx, row), ClaimOn(tx, row), routed, routedLater)
  {
    LifecycleIs(s, id, tx, mid, row, routed, Commit(id, routedLater));
    DirectIs(s, j, tx, mid, row, routed);
    DebitLifecycle(PostedOn(tx, row), ClaimOn(tx, row), routed, routedLater, ViewOf(Run(s, mid), row).money);
  }

  /** And the one under which hold-then-cancel restores it. */
  lemma DebitRowCancel(s: State, id: string, tx: Transaction, mid: seq<Action>, row: string,
                       routed: bool, routedLater: bool)
    requires Consistent(s) && row in s.rows && s.rows[row].direction == DebitDirection
    requires tx.pending && id !in s.pending && ApartFrom(mid, id) && Creatable(s.rows.Keys, tx)
    ensures Agree(Run(s, [Create(id, tx, routed)] + mid + [Cancel(id, routedLater)]), Run(s, mid), row)
            <==> DebitCancelExact(PostedOn(tx, row), ClaimOn(tx, row), routed, routedLater)
  {
    LifecycleIs(s, id, tx, mid, row, routed, Cancel(id, routedLater));
    DebitLifecycle(PostedOn(tx, row), ClaimOn(tx, row), routed, routedLater, ViewOf(Run(s, mid), row).money);
  }

  predicate NonNegativeOn(tx: Transaction, row: string) {
    SourceOn(tx, row) >= 0.0 && DestinationOn(tx, row) >= 0.0
  }

  lemma DebitExactOn(tx: Transaction, row: string, routed: bool, routedLater: bool)
    requires Whole(tx, row) && NonNegativeOn(tx, row)
    ensures DebitCommitExact(PostedOn(tx, row), ClaimOn(tx, row), routed, routedLater) <==>
            DestinationOn(tx, row) == 0.0 && ((routed && routedLater) || SourceOn(tx, row) == 0.0)
    ensures DebitCancelExact(PostedOn(tx, row), ClaimOn(tx, row), routed, routedLater) <==>
            if routed == routedLater then DestinationOn(tx, row) == 0.0
            else if routed then DestinationOn(tx, row) == SourceOn(tx, row)
            else DestinationOn(tx, row) == 0.0 && SourceOn(tx, row) == 0.0
  {
    DebitExactPlain(ClaimOn(tx, row), routed, routedLater);
  }

  /** For a debit-direction row without a positive remainder or negative claims: hold-then-commit is
      the direct transaction exactly when nothing arrives there and both steps are routed or nothing
      is taken. */
  lemma DebitRowCommitPlain(s: State, id: string, tx: Transaction, mid: seq<Action>, row: string,
                            routed: bool, routedLater: bool, j: string)
    requires Consistent(s) && row in s.rows && s.rows[row].direction == DebitDirection
    requires tx.pending && id !in s.pending && ApartFrom(mid, id) && Creatable(s.rows.Keys, tx)
    requires Whole(tx, row) && NonNegativeOn(tx, row)
    ensures Agree(Run(s, [Create(id, tx, routed)] + mid + [Commit(id, routedLater)]),
                  Run(s, [Create(j, Direct(tx), routed)] + mid), row)
            <==> DestinationOn(tx, row) == 0.0 && ((routed && routedLater) || SourceOn(tx, row) == 0.0)
  {
    DebitRowCommit(s, id, tx, mid, row, routed, routedLater, j);
    DebitExactOn(tx, row, routed, routedLater);
  }

  /** And hold-then-cancel restores it exactly when nothing arrives there, both steps under one
      setting; held routed and canceled unrouted, when as much arrives as is taken; and the other way
      round only when it is not touched. */
  lemma DebitRowCancelPlain(s: State, id: string, tx: Transaction, mid: seq<Action>, row: string,
                            routed: bool, routedLater: bool)
    requires Consistent(s) && row in s.rows && s.rows[row].direction == DebitDirection
    requires tx.pending && id !in s.pending && ApartFrom(mid, id) && Creatable(s.rows.Keys, tx)
    requires Whole(tx, row) && NonNegativeOn(tx, row)
    ensures Agree(Run(s, [Create(id, tx, routed)] + mid + [Cancel(id, routedLater)]), Run(s, mid), row)
            <==> if routed == routedLater then DestinationOn(tx, row) == 0.0
                 else if routed then DestinationOn(tx, row) == SourceOn(tx, row)
                 else DestinationOn(tx, row) == 0.0 && SourceOn(tx, row) == 0.0
  {
    DebitRowCancel(s, id, tx, mid, row, routed, routedLater);
    DebitExactOn(tx, row, routed, routedLater);
  }
}
