/** The ledger: rows by `alias#key`, and the transactions currently pending. A transaction is
    created (directly or as a hold), and a held one is later committed or canceled, each as the
    handlers do it: creation resolves its entries twice and keeps what the resolver left in them. */
module LedgerModel {
  import opened TransactionTypes
  import opened Aliases
  import opened BalanceEngine
  import opened SendValidation
  import opened Reresolution

  type Rows = map<string, Balance>

  /** A resolved amount and the row its composite key names. */
  datatype Leg = Leg(row: string, amount: Amount)

  function LegsOf(side: map<string, Amount>): map<string, Leg> {
    map k | k in side :: Leg(SplitAliasWithKey(k), side[k])
  }

  /** One leg on its row; a leg without a row is skipped. */
  function ApplyOne(rows: Rows, leg: Leg): Rows {
    if leg.row in rows then rows[leg.row := ApplyLeg(leg.amount, rows[leg.row])] else rows
  }

  /** All legs of one side. */
  ghost function ApplySide(rows: Rows, side: map<string, Leg>): Rows
    decreases |side|
  {
    if side == map[] then rows
    else
      var k :| k in side;
      assert |side - {k}| < |side| by { assert (side - {k}).Keys == side.Keys - {k}; }
      ApplySide(ApplyOne(rows, side[k]), side - {k})
  }

  lemma LegsCommute(rows: Rows, a: Leg, b: Leg)
    ensures ApplyOne(ApplyOne(rows, a), b) == ApplyOne(ApplyOne(rows, b), a)
  {
    if a.row == b.row && a.row in rows {
      var start := rows[a.row];
      LegTranslates(a.amount, start);
      LegTranslates(b.amount, start);
      LegTranslates(a.amount, ApplyLeg(b.amount, start));
      LegTranslates(b.amount, ApplyLeg(a.amount, start));
      assert ApplyOne(ApplyOne(rows, a), b)[a.row] == ApplyOne(ApplyOne(rows, b), a)[a.row];
    }
  }

  /** Any leg may come first: the map iteration order and the later sort do not matter. */
  lemma {:induction false} ApplyAnyFirst(rows: Rows, side: map<string, Leg>, k: string)
    requires k in side
    ensures ApplySide(rows, side) == ApplySide(ApplyOne(rows, side[k]), side - {k})
    decreases |side|
  {
    var j :| j in side && ApplySide(rows, side) == ApplySide(ApplyOne(rows, side[j]), side - {j});
    if j != k {
      assert (side - {j}).Keys == side.Keys - {j} && (side - {k}).Keys == side.Keys - {k};
      ApplyAnyFirst(ApplyOne(rows, side[j]), side - {j}, k);
      ApplyAnyFirst(ApplyOne(rows, side[k]), side - {k}, j);
      LegsCommute(rows, side[k], side[j]);
      assert side - {j} - {k} == side - {k} - {j};
    }
  }

  function Routed(from: map<string, Amount>, status: Status, routed: bool): map<string, Amount> {
    if routed then PropagateAll(from, status) else from
  }

  predicate RowsPresent(rows: Rows, side: map<string, Amount>) {
    forall k :: k in side ==> SplitAliasWithKey(k) in rows
  }

  /** Validate entries with composite keys, propagate, and apply every operation; or reject and
      change nothing. */
  ghost function PostPrepared(rows: Rows, tx: Transaction, status: Status, routed: bool): Result<Rows> {
    match Validate(tx, status)
    case Err(e) => Err(e)
    case Ok(r) =>
      if RowsPresent(rows, r.from) && RowsPresent(rows, r.to) then
        Ok(ApplySide(ApplySide(rows, LegsOf(Routed(r.from, status, routed))), LegsOf(r.to)))
      else Err(AccountIneligibility)
  }

  ghost function Post(rows: Rows, tx: Transaction, status: Status, routed: bool): Result<Rows> {
    PostPrepared(rows, Prepare(tx), status, routed)
  }

  datatype State = State(rows: Rows, pending: map<string, Transaction>)

  /** `routed` is the ledger's validateRoutes setting, read afresh at every step. */
  datatype Action =
    | Create(id: string, tx: Transaction, routed: bool)
    | Commit(id: string, routed: bool)
    | Cancel(id: string, routed: bool)

  /** What a held transaction is stored as: its entries as two resolutions left them. */
  function Body(tx: Transaction): Transaction {
    Again(Again(tx, tx.InitialStatus()), tx.InitialStatus())
  }

  /** Posting what a first validation, on raw aliases, left in the entries. */
  ghost function PostAgain(rows: Rows, tx: Transaction, routed: bool): Result<Rows> {
    var status := tx.InitialStatus();
    if tx.value <= 0.0 then Err(NonPositiveValue)
    else match Validate(tx, status)
      case Err(e) => Err(e)
      case Ok(_) => Post(rows, Again(tx, status), status, routed)
  }

  ghost function Step(s: State, a: Action): Result<State> {
    match a
    case Create(id, tx, routed) =>
      if !WellFormed(tx) || (tx.pending && id in s.pending) then Err(InvalidInput)
      else (
        match PostAgain(s.rows, tx, routed)
        case Err(e) => Err(e)
        case Ok(rows) => Ok(State(rows, if tx.pending then s.pending[id := Body(tx)] else s.pending))
      )
    case Commit(id, routed) => Close(s, id, APPROVED, routed)
    case Cancel(id, routed) => Close(s, id, CANCELED, routed)
  }

  ghost function Close(s: State, id: string, status: Status, routed: bool): Result<State> {
    if id !in s.pending then Err(TransactionNotPending)
    else match Post(s.rows, s.pending[id], status, routed)
      case Err(e) => Err(e)
      case Ok(rows) => Ok(State(rows, s.pending - {id}))
  }

  /** A rejected step leaves the state as it was. */
  ghost function After(s: State, a: Action): State {
    match Step(s, a) case Ok(t) => t case Err(_) => s
  }

  ghost function Run(s: State, actions: seq<Action>): State
    decreases actions
  {
    if actions == [] then s else Run(After(s, actions[0]), actions[1..])
  }

  datatype Outcome = Done | Rejected(error: Error)

  ghost function OutcomeOf(r: Result<State>): Outcome {
    match r case Ok(_) => Done case Err(e) => Rejected(e)
  }

  /** The same steps on mutable state. */
  class Ledger {
    var rows: Rows
    var pending: map<string, Transaction>

    constructor (rows: Rows)
      ensures Now() == State(rows, map[])
    {
      this.rows := rows;
      this.pending := map[];
    }

    ghost function Now(): State
      reads this
    {
      State(rows, pending)
    }

    /** Applies the legs of one side in whatever order they are drawn from the map. */
    method Apply(side: map<string, Leg>)
      modifies this`rows
      ensures rows == ApplySide(old(rows), side)
    {
      var todo := side;
      while todo != map[]
        invariant ApplySide(rows, todo) == ApplySide(old(rows), side)
        decreases |todo|
      {
        var key :| key in todo;
        ApplyAnyFirst(rows, todo, key);
        assert (todo - {key}).Keys == todo.Keys - {key};
        rows := ApplyOne(rows, todo[key]);
        todo := todo - {key};
      }
    }

    /** Takes entries with composite keys. */
    method Transact(tx: Transaction, status: Status, routed: bool) returns (o: Outcome)
      modifies this`rows
      ensures match PostPrepared(old(rows), tx, status, routed)
              case Ok(r) => o == Done && rows == r
              case Err(e) => o == Rejected(e) && rows == old(rows)
    {
      var v := Validate(tx, status);
      if v.Err? {
        return Rejected(v.error);
      }
      if !RowsPresent(rows, v.value.from) || !RowsPresent(rows, v.value.to) {
        return Rejected(AccountIneligibility);
      }
      var from := v.value.from;
      if routed {
        from := PropagateRouteValidation(from, status);
      }
      Apply(LegsOf(from));
      Apply(LegsOf(v.value.to));
      return Done;
    }

    /** What the first validation leaves of the input is given composite keys for the second; what
        that one leaves is stored under raw aliases. */
    method Resolutions(tx: Transaction) returns (again: Transaction, body: Transaction)
      requires Shaped(tx)
      ensures again == Prepare(Again(tx, tx.InitialStatus())) && body == Body(tx)
    {
      var status := tx.InitialStatus();
      StoredBody(tx, status);
      again := Prepare(Again(tx, status));
      body := Restore(Again(again, status));
    }

    /** The raw input is validated, then validated again as the first validation left it; that
        result is posted, and the body is the input as the second left it. */
    method Enter(tx: Transaction, routed: bool) returns (o: Outcome, body: Transaction)
      requires Shaped(tx)
      modifies this`rows
      ensures body == Body(tx)
      ensures match PostAgain(old(rows), tx, routed)
              case Ok(r) => o == Done && rows == r
              case Err(e) => o == Rejected(e) && rows == old(rows)
    {
      var status := tx.InitialStatus();
      var again;
      again, body := Resolutions(tx);
      if tx.value <= 0.0 {
        return Rejected(NonPositiveValue), body;
      }
      var first := Validate(tx, status);
      if first.Err? {
        return Rejected(first.error), body;
      }
      o := Transact(again, status, routed);
    }

    method CreateTransaction(id: string, tx: Transaction, routed: bool) returns (o: Outcome)
      modifies this
      ensures Now() == After(old(Now()), Create(id, tx, routed))
      ensures o == OutcomeOf(Step(old(Now()), Create(id, tx, routed)))
    {
      if !WellFormed(tx) || (tx.pending && id in pending) {
        return Rejected(InvalidInput);
      }
      var body;
      o, body := Enter(tx, routed);
      if o == Done && tx.pending {
        pending := pending[id := body];
      }
    }

    /** Commit and cancel: the stored entries are resolved once more. */
    method CloseTransaction(id: string, status: Status, routed: bool) returns (o: Outcome)
      modifies this
      ensures match Close(old(Now()), id, status, routed)
              case Ok(t) => o == Done && Now() == t
              case Err(e) => o == Rejected(e) && Now() == old(Now())
    {
      if id !in pending {
        return Rejected(TransactionNotPending);
      }
      o := Transact(Prepare(pending[id]), status, routed);
      if o == Done {
        pending := pending - {id};
      }
    }

    method CommitTransaction(id: string, routed: bool) returns (o: Outcome)
      modifies this
      ensures Now() == After(old(Now()), Commit(id, routed))
      ensures o == OutcomeOf(Step(old(Now()), Commit(id, routed)))
    {
      o := CloseTransaction(id, APPROVED, routed);
    }

    method CancelTransaction(id: string, routed: bool) returns (o: Outcome)
      modifies this
      ensures Now() == After(old(Now()), Cancel(id, routed))
      ensures o == OutcomeOf(Step(old(Now()), Cancel(id, routed)))
    {
      o := CloseTransaction(id, CANCELED, routed);
    }
  }
}
