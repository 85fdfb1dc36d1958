/** Conservation of money over whole runs. A debit-direction row is a liability, so it counts
    with its Available negated. */
module Conservation {
  import opened TransactionTypes
  import opened Aliases
  import opened Sums
  import opened Resolver
  import opened SendValidation
  import opened Reresolution
  import opened LedgerModel
  import opened LedgerEffects
  import opened LedgerRuns

  function Worth(b: Balance): real {
    (if b.direction == DebitDirection then -b.available else b.available) + b.onHold
  }

  function Worths(rows: Rows): map<string, real> {
    map k | k in rows :: Worth(rows[k])
  }

  ghost function Position(rows: Rows): real {
    Sum(Worths(rows))
  }

  // ---------- a side's row totals sum to its total ----------

  function RowTotals(keys: set<string>, es: Entries, send: real): map<string, real> {
    map k | k in keys :: RowTotal(es, send, k)
  }

  /** The share of the last entry on each row. */
  function LastOn(keys: set<string>, es: Entries, send: real): map<string, real>
    requires es != []
  {
    var e := Last(es);
    map k | k in keys ::
      if LastValue(es, send).Some? && AliasKey(e.accountAlias, e.balanceKey) == k then LastValue(es, send).value
      else 0.0
  }

  lemma RowTotalStep(es: Entries, send: real, k: string)
    requires es != []
    ensures RowTotal(es, send, k) == RowTotal(Init(es), send, k) + LastOn({k}, es, send)[k]
  {
    assert Init(RowPicks(es, k)) == RowPicks(Init(es), k);
  }

  lemma {:induction false} RowTotalsSum(keys: set<string>, es: Entries, send: real)
    requires RowsKnown(keys, es) && forall i :: 0 <= i < |es| ==> OneKind(es[i])
    ensures Sum(RowTotals(keys, es, send)) == Total(es, send)
  {
    if es == [] {
      SumZero(RowTotals(keys, es, send));
    } else {
      var e := Last(es);
      RowTotalsSum(keys, Init(es), send);
      forall k | k in keys
        ensures RowTotals(keys, es, send)[k] == RowTotals(keys, Init(es), send)[k] + LastOn(keys, es, send)[k]
      {
        RowTotalStep(es, send, k);
      }
      SumPlus(RowTotals(keys, Init(es), send), LastOn(keys, es, send), RowTotals(keys, es, send));
      LastOnSum(keys, es, send);
    }
  }

  lemma LastOnSum(keys: set<string>, es: Entries, send: real)
    requires es != [] && RowsKnown(keys, es) && OneKind(Last(es))
    ensures Sum(LastOn(keys, es, send)) == Total(es, send) - Total(Init(es), send)
  {
    var e, m := Last(es), LastOn(keys, es, send);
    if Contributes(e) {
      SumPoint(m, AliasKey(e.accountAlias, e.balanceKey));
    } else {
      SumZero(m);
    }
  }

  function Shortfalls(keys: set<string>, es: Entries, send: real): map<string, real> {
    map k | k in keys :: Shortfall(es, send, k)
  }

  /** What is missing row by row sums to the positive remainder. */
  lemma ShortfallsSum(keys: set<string>, es: Entries, send: real)
    requires RowsKnown(keys, es) && Tame(es, send)
    ensures Sum(Shortfalls(keys, es, send)) == PositiveRemainder(es, send)
  {
    var m := Shortfalls(keys, es, send);
    if PositiveRemainder(es, send) == 0.0 {
      RemainderRow(keys, es, send);
      SumZero(m);
    } else {
      var i :| 0 <= i < |es| && es[i].remaining;
      var row := AliasKey(es[i].accountAlias, es[i].balanceKey);
      assert Contributes(es[i]);
      assert RemainingOn(es, row);
      forall k | k in m && k != row ensures m[k] == 0.0 {
        OnlyRow(es, i, k);
      }
      SumPoint(m, row);
    }
  }

  lemma OnlyRow(es: Entries, i: nat, k: string)
    requires AtMostOneRemaining(es) && i < |es| && es[i].remaining
    requires k != AliasKey(es[i].accountAlias, es[i].balanceKey)
    ensures !RemainingOn(es, k)
  {
    forall j | 0 <= j < |es| && es[j].remaining ensures j == i {
    }
  }

  // ---------- rows moved by claims ----------

  type RowClaims = map<string, Claim>

  /** Every row moved by its table entry for its claim. */
  predicate MovedBy(rows: Rows, after: Rows, claims: RowClaims, status: Status, routed: bool) {
    && rows.Keys == after.Keys == claims.Keys
    && forall k :: k in rows ==>
      && after[k].direction == rows[k].direction
      && MoneyOf(after[k]) == MoneyOf(rows[k]).Plus(Move(claims[k], status, routed, rows[k].direction))
  }

  /** What a posting adds to a row's worth. */
  function WorthMove(c: Claim, status: Status, routed: bool, dir: Direction): real {
    var m := Move(c, status, routed, dir);
    (if dir == DebitDirection then -m.available else m.available) + m.onHold
  }

  /** How far a debit-direction row misses the double entry: holding and canceling move its
      Available the wrong way unless routed, and credit it as a destination when nothing should
      arrive yet. */
  function Leak(c: Claim, status: Status, routed: bool, dir: Direction): real {
    if dir != DebitDirection then 0.0
    else match status
      case PENDING => c.destination + (if routed then 0.0 else 2.0 * c.source)
      case CANCELED => c.destination - (if routed then 0.0 else 2.0 * c.source)
      case _ => 0.0
  }

  /** What the double entry prescribes for a row. */
  function Prescribed(c: Claim, status: Status): real {
    if status == CREATED || status == APPROVED then c.destination - c.source else 0.0
  }

  lemma WorthMoveIs(c: Claim, status: Status, routed: bool, dir: Direction)
    requires status in {CREATED, PENDING, APPROVED, CANCELED}
    ensures WorthMove(c, status, routed, dir) == Prescribed(c, status) + Leak(c, status, routed, dir)
  {
  }

  function Leaks(rows: Rows, claims: RowClaims, status: Status, routed: bool): map<string, real>
    requires claims.Keys == rows.Keys
  {
    map k | k in rows :: Leak(claims[k], status, routed, rows[k].direction)
  }

  function PrescribedAll(claims: RowClaims, status: Status): map<string, real> {
    map k | k in claims :: Prescribed(claims[k], status)
  }

  lemma RowWorth(rows: Rows, after: Rows, claims: RowClaims, status: Status, routed: bool, k: string)
    requires MovedBy(rows, after, claims, status, routed) && k in rows
    requires status in {CREATED, PENDING, APPROVED, CANCELED}
    ensures Worth(after[k]) ==
            Worth(rows[k]) + Prescribed(claims[k], status) + Leak(claims[k], status, routed, rows[k].direction)
  {
    WorthMoveIs(claims[k], status, routed, rows[k].direction);
  }

  lemma MovedPosition(rows: Rows, after: Rows, claims: RowClaims, status: Status, routed: bool)
    requires MovedBy(rows, after, claims, status, routed) && status in {CREATED, PENDING, APPROVED, CANCELED}
    ensures Position(after) ==
            Position(rows) + Sum(PrescribedAll(claims, status)) + Sum(Leaks(rows, claims, status, routed))
  {
    var prescribed, leaks := PrescribedAll(claims, status), Leaks(rows, claims, status, routed);
    var moves := map k | k in rows :: prescribed[k] + leaks[k];
    forall k | k in rows ensures Worths(after)[k] == Worths(rows)[k] + moves[k] {
      RowWorth(rows, after, claims, status, routed, k);
    }
    SumPlus(prescribed, leaks, moves);
    SumPlus(Worths(rows), moves, Worths(after));
  }

  // ---------- what the double entry prescribes over all rows ----------

  function SourcesOf(claims: RowClaims): map<string, real> {
    map k | k in claims :: claims[k].source
  }

  function DestinationsOf(claims: RowClaims): map<string, real> {
    map k | k in claims :: claims[k].destination
  }

  lemma PrescribedSum(claims: RowClaims, status: Status)
    ensures Sum(PrescribedAll(claims, status)) ==
            if status == CREATED || status == APPROVED then Sum(DestinationsOf(claims)) - Sum(SourcesOf(claims))
            else 0.0
  {
    var all := PrescribedAll(claims, status);
    if status == CREATED || status == APPROVED {
      var minus := map k | k in claims :: -claims[k].source;
      SumNegate(SourcesOf(claims), minus);
      SumPlus(DestinationsOf(claims), minus, all);
    } else {
      SumZero(all);
    }
  }

  /** What a stored body claims on each row. */
  function Claims(keys: set<string>, tx: Transaction): RowClaims {
    map k | k in keys :: ClaimOn(tx, k)
  }

  /** What a creation posts on each row. */
  function Postings(keys: set<string>, tx: Transaction): RowClaims {
    map k | k in keys :: PostedOn(tx, k)
  }

  lemma ClaimsBalance(keys: set<string>, tx: Transaction, status: Status)
    requires WellFormed(tx) && Admissible(keys, tx)
    ensures Sum(PrescribedAll(Claims(keys, tx), status)) == 0.0
  {
    var claims := Claims(keys, tx);
    PrescribedSum(claims, status);
    RowTotalsSum(keys, tx.from, tx.value);
    RowTotalsSum(keys, tx.to, tx.value);
    assert SourcesOf(claims) == RowTotals(keys, tx.from, tx.value);
    assert DestinationsOf(claims) == RowTotals(keys, tx.to, tx.value);
  }

  /** By how much a direct creation misses the double entry: each side is posted without its
      positive remainder. */
  function Imbalance(tx: Transaction): real {
    if tx.pending then 0.0 else PositiveRemainder(tx.from, tx.value) - PositiveRemainder(tx.to, tx.value)
  }

  lemma PostedSum(keys: set<string>, es: Entries, send: real, posted: map<string, real>)
    requires RowsKnown(keys, es) && Tame(es, send) && OneKindSide(es) && posted.Keys == keys
    requires forall k :: k in keys ==> posted[k] == RowTotal(es, send, k) - Shortfall(es, send, k)
    ensures Sum(posted) == Total(es, send) - PositiveRemainder(es, send)
  {
    RowTotalsSum(keys, es, send);
    ShortfallsSum(keys, es, send);
    SumPlus(posted, Shortfalls(keys, es, send), RowTotals(keys, es, send));
  }

  lemma PostingsBalance(keys: set<string>, tx: Transaction)
    requires Creatable(keys, tx)
    ensures Sum(PrescribedAll(Postings(keys, tx), tx.InitialStatus())) == Imbalance(tx)
  {
    var posted := Postings(keys, tx);
    PrescribedSum(posted, tx.InitialStatus());
    PostedSum(keys, tx.from, tx.value, SourcesOf(posted));
    PostedSum(keys, tx.to, tx.value, DestinationsOf(posted));
  }

  // ---------- one step ----------

  lemma {:induction false} ApplySideKeys(rows: Rows, side: map<string, Leg>)
    ensures ApplySide(rows, side).Keys == rows.Keys
    decreases |side|
  {
    if side != map[] {
      var k :| k in side;
      ApplyAnyFirst(rows, side, k);
      assert (side - {k}).Keys == side.Keys - {k};
      ApplySideKeys(ApplyOne(rows, side[k]), side - {k});
    }
  }

  lemma PostKeys(rows: Rows, tx: Transaction, status: Status, routed: bool)
    requires Post(rows, tx, status, routed).Ok?
    ensures Post(rows, tx, status, routed).value.Keys == rows.Keys
  {
    var r := Validate(Prepare(tx), status).value;
    var from := LegsOf(Routed(r.from, status, routed));
    ApplySideKeys(rows, from);
    ApplySideKeys(ApplySide(rows, from), LegsOf(r.to));
  }

  lemma CreateKeys(s: State, id: string, tx: Transaction, routed: bool)
    requires Creatable(s.rows.Keys, tx) && !Taken(s, id, tx)
    ensures After(s, Create(id, tx, routed)).rows.Keys == s.rows.Keys
  {
    CreatedState(s, id, tx, routed);
    PostKeys(s.rows, Again(tx, tx.InitialStatus()), tx.InitialStatus(), routed);
  }

  lemma CreateMoves(s: State, id: string, tx: Transaction, routed: bool)
    requires Consistent(s) && Creatable(s.rows.Keys, tx) && !Taken(s, id, tx)
    ensures MovedBy(s.rows, After(s, Create(id, tx, routed)).rows, Postings(s.rows.Keys, tx),
                    tx.InitialStatus(), routed)
  {
    var t, claims := After(s, Create(id, tx, routed)).rows, Postings(s.rows.Keys, tx);
    CreateKeys(s, id, tx, routed);
    forall k | k in s.rows
      ensures && t[k].direction == s.rows[k].direction
              && MoneyOf(t[k]) ==
                 MoneyOf(s.rows[k]).Plus(Move(claims[k], tx.InitialStatus(), routed, s.rows[k].direction))
    {
      CreateAccepted(s, id, tx, routed, k);
    }
  }

  lemma CloseMoves(s: State, id: string, status: Status, routed: bool)
    requires Consistent(s) && id in s.pending && status in {APPROVED, CANCELED}
    ensures Close(s, id, status, routed).Ok?
    ensures MovedBy(s.rows, Close(s, id, status, routed).value.rows, Claims(s.rows.Keys, s.pending[id]), status, routed)
  {
    PostAcceptedIff(s.rows, s.pending[id], status, routed);
    PostKeys(s.rows, s.pending[id], status, routed);
    forall k | k in s.rows
      ensures var t := Close(s, id, status, routed).value.rows;
              && t[k].direction == s.rows[k].direction
              && MoneyOf(t[k]) ==
                 MoneyOf(s.rows[k]).Plus(Move(ClaimOn(s.pending[id], k), status, routed, s.rows[k].direction))
    {
      CloseIs(s, id, status, routed, k);
    }
  }

  /** What closing a pending transaction leaks. */
  ghost function CloseLeak(s: State, id: string, status: Status, routed: bool): real {
    if id in s.pending then Sum(Leaks(s.rows, Claims(s.rows.Keys, s.pending[id]), status, routed)) else 0.0
  }

  /** By how much a step changes the position: the leaks of its debit-direction rows and, for a
      direct creation, the difference of the positive remainders. */
  ghost function StepLeak(s: State, a: Action): real {
    match a
    case Create(id, tx, routed) =>
      if Taken(s, id, tx) || !Creatable(s.rows.Keys, tx) then 0.0
      else Imbalance(tx) + Sum(Leaks(s.rows, Postings(s.rows.Keys, tx), tx.InitialStatus(), routed))
    case Commit(id, routed) => CloseLeak(s, id, APPROVED, routed)
    case Cancel(id, routed) => CloseLeak(s, id, CANCELED, routed)
  }

  lemma CreatePosition(s: State, id: string, tx: Transaction, routed: bool)
    requires Consistent(s)
    ensures Position(After(s, Create(id, tx, routed)).rows) == Position(s.rows) + StepLeak(s, Create(id, tx, routed))
  {
    if Taken(s, id, tx) || !Creatable(s.rows.Keys, tx) {
      CreateRejected(s, id, tx, routed);
    } else {
      var t := After(s, Create(id, tx, routed));
      CreateMoves(s, id, tx, routed);
      MovedPosition(s.rows, t.rows, Postings(s.rows.Keys, tx), tx.InitialStatus(), routed);
      PostingsBalance(s.rows.Keys, tx);
    }
  }

  lemma ClosePosition(s: State, id: string, status: Status, routed: bool)
    requires Consistent(s) && id in s.pending && status in {APPROVED, CANCELED}
    ensures Close(s, id, status, routed).Ok?
    ensures Position(Close(s, id, status, routed).value.rows) == Position(s.rows) + CloseLeak(s, id, status, routed)
  {
    CloseMoves(s, id, status, routed);
    MovedPosition(s.rows, Close(s, id, status, routed).value.rows, Claims(s.rows.Keys, s.pending[id]), status, routed);
    ClaimsBalance(s.rows.Keys, s.pending[id], status);
  }

  /** Every step changes the position by exactly its leak. */
  lemma StepPosition(s: State, a: Action)
    requires Consistent(s)
    ensures Position(After(s, a).rows) == Position(s.rows) + StepLeak(s, a)
  {
    match a
    case Create(id, tx, routed) => CreatePosition(s, id, tx, routed);
    case Commit(id, routed) => if id in s.pending { ClosePosition(s, id, APPROVED, routed); }
    case Cancel(id, routed) => if id in s.pending { ClosePosition(s, id, CANCELED, routed); }
  }

  /** Steps keep the state consistent and the rows' directions. */
  lemma StepFrame(s: State, a: Action)
    requires Consistent(s)
    ensures Consistent(After(s, a))
    ensures NoDebitRows(s.rows) ==> NoDebitRows(After(s, a).rows)
  {
    match a
    case Create(id, tx, routed) =>
      if Taken(s, id, tx) || !Creatable(s.rows.Keys, tx) {
        CreateRejected(s, id, tx, routed);
      } else {
        CreateMoves(s, id, tx, routed);
        CreatedState(s, id, tx, routed);
        StillConsistent(s, After(s, a), id, tx);
      }
    case Commit(id, routed) => if id in s.pending { CloseMoves(s, id, APPROVED, routed); }
    case Cancel(id, routed) => if id in s.pending { CloseMoves(s, id, CANCELED, routed); }
  }

  // ---------- whole runs ----------

  ghost function RunLeak(s: State, actions: seq<Action>): real
    decreases actions
  {
    if actions == [] then 0.0 else StepLeak(s, actions[0]) + RunLeak(After(s, actions[0]), actions[1..])
  }

  /** Every run changes the position of the ledger by exactly the leaks of its accepted steps. */
  lemma {:induction false} RunPosition(s: State, actions: seq<Action>)
    requires Consistent(s)
    ensures Position(Run(s, actions).rows) == Position(s.rows) + RunLeak(s, actions)
    decreases actions
  {
    if actions != [] {
      StepPosition(s, actions[0]);
      StepFrame(s, actions[0]);
      RunPosition(After(s, actions[0]), actions[1..]);
    }
  }

  /** An accepted direct creation whose sides have different positive remainders. */
  ghost predicate Lopsided(s: State, a: Action) {
    a.Create? && Creatable(s.rows.Keys, a.tx) && Imbalance(a.tx) != 0.0
  }

  lemma NoLeak(rows: Rows, claims: RowClaims, status: Status, routed: bool)
    requires NoDebitRows(rows) && claims.Keys == rows.Keys
    ensures Sum(Leaks(rows, claims, status, routed)) == 0.0
  {
    SumZero(Leaks(rows, claims, status, routed));
  }

  lemma CloseLeakZero(s: State, id: string, status: Status, routed: bool)
    requires NoDebitRows(s.rows)
    ensures CloseLeak(s, id, status, routed) == 0.0
  {
    if id in s.pending {
      NoLeak(s.rows, Claims(s.rows.Keys, s.pending[id]), status, routed);
    }
  }

  lemma StepLeakIs(s: State, a: Action)
    requires NoDebitRows(s.rows)
    ensures StepLeak(s, a) == if Lopsided(s, a) then Imbalance(a.tx) else 0.0
  {
    match a
    case Create(id, tx, routed) =>
      if !Taken(s, id, tx) && Creatable(s.rows.Keys, tx) {
        NoLeak(s.rows, Postings(s.rows.Keys, tx), tx.InitialStatus(), routed);
      }
    case Commit(id, routed) => CloseLeakZero(s, id, APPROVED, routed);
    case Cancel(id, routed) => CloseLeakZero(s, id, CANCELED, routed);
  }

  /** Without debit-direction rows, a step conserves Available plus OnHold over all rows exactly when
      it is not such a creation; holds, commits and cancels always do. */
  lemma StepConserves(s: State, a: Action)
    requires Consistent(s) && NoDebitRows(s.rows)
    ensures Position(After(s, a).rows) == Position(s.rows) <==> !Lopsided(s, a)
  {
    StepPosition(s, a);
    StepLeakIs(s, a);
  }

  /** What a direct creation then adds. */
  lemma DirectPosition(s: State, id: string, tx: Transaction, routed: bool)
    requires Consistent(s) && NoDebitRows(s.rows) && Creatable(s.rows.Keys, tx) && !tx.pending
    ensures Position(After(s, Create(id, tx, routed)).rows) == Position(s.rows) + Imbalance(tx)
  {
    StepPosition(s, Create(id, tx, routed));
    StepLeakIs(s, Create(id, tx, routed));
  }

  /** What a hold adds when one row alone is debit-direction. */
  lemma HoldPosition(s: State, id: string, tx: Transaction, routed: bool, row: string)
    requires Consistent(s) && Creatable(s.rows.Keys, tx) && tx.pending && id !in s.pending && row in s.rows
    requires forall k :: k in s.rows && k != row ==> s.rows[k].direction != DebitDirection
    ensures Position(After(s, Create(id, tx, routed)).rows) ==
            Position(s.rows) + Leak(PostedOn(tx, row), PENDING, routed, s.rows[row].direction)
  {
    StepPosition(s, Create(id, tx, routed));
    SumPoint(Leaks(s.rows, Postings(s.rows.Keys, tx), PENDING, routed), row);
  }

  /** No step along the run is lopsided. */
  ghost predicate Even(s: State, actions: seq<Action>)
    decreases actions
  {
    actions != [] ==> !Lopsided(s, actions[0]) && Even(After(s, actions[0]), actions[1..])
  }

  ghost predicate ConservesThroughout(s: State, actions: seq<Action>)
    decreases actions
  {
    actions != [] ==>
      && Position(After(s, actions[0]).rows) == Position(s.rows)
      && ConservesThroughout(After(s, actions[0]), actions[1..])
  }

  /** Along a run without debit-direction rows the sum over all rows of Available plus OnHold stays
      the same throughout exactly when no accepted direct creation is lopsided, in either form of
      the engine. */
  lemma {:induction false} RunConserves(s: State, actions: seq<Action>)
    requires Consistent(s) && NoDebitRows(s.rows)
    ensures ConservesThroughout(s, actions) <==> Even(s, actions)
    ensures Even(s, actions) ==> Position(Run(s, actions).rows) == Position(s.rows)
    decreases actions
  {
    if actions != [] {
      StepConserves(s, actions[0]);
      StepFrame(s, actions[0]);
      RunConserves(After(s, actions[0]), actions[1..]);
    }
  }
}
