/** What one posted transaction does to every row, as a table over status, route validation and
    direction; nothing in it depends on the values stored in the rows. */
module LedgerEffects {
  import opened TransactionTypes
  import opened Aliases
  import opened BalanceEngine
  import opened Sums
  import opened Resolver
  import opened SendValidation
  import opened Reresolution
  import opened LedgerModel

  function SourceEffect(status: Status, routed: bool, dir: Direction): Effect {
    var debit := dir == DebitDirection;
    match status
    case CREATED => Effect(if debit then Plus else Minus, Zero)
    case PENDING => Effect(if debit && routed then Plus else Minus, Plus)
    case APPROVED => if debit && !routed then Effect(Plus, Zero) else Effect(Zero, Minus)
    case CANCELED => Effect(if debit && routed then Minus else Plus, Minus)
    case _ => Effect(Zero, Zero)
  }

  /** A debit-direction destination is credited under every status; any other one only when the
      transaction is created directly or committed. */
  function DestinationEffect(status: Status, dir: Direction): Effect {
    if dir == DebitDirection then Effect(Minus, Zero)
    else if status == CREATED || status == APPROVED then Effect(Plus, Zero)
    else Effect(Zero, Zero)
  }

  datatype Money = Money(available: real, onHold: real) {
    function Plus(m: Money): Money {
      Money(available + m.available, onHold + m.onHold)
    }
  }

  function MoneyOf(b: Balance): Money {
    Money(b.available, b.onHold)
  }

  function SourceOn(tx: Transaction, row: string): real {
    RowTotal(tx.from, tx.value, row)
  }

  function DestinationOn(tx: Transaction, row: string): real {
    RowTotal(tx.to, tx.value, row)
  }

  /** What a transaction takes from a row and what it brings to it. */
  datatype Claim = Claim(source: real, destination: real)

  function ClaimOn(tx: Transaction, row: string): Claim {
    Claim(SourceOn(tx, row), DestinationOn(tx, row))
  }

  /** The displacement of a row by one posted transaction. */
  function Move(c: Claim, status: Status, routed: bool, dir: Direction): Money {
    var from, to := SourceEffect(status, routed, dir), DestinationEffect(status, dir);
    Money(from.available.Of(c.source) + to.available.Of(c.destination),
          from.onHold.Of(c.source) + to.onHold.Of(c.destination))
  }

  /** The statuses a transaction goes through. */
  predicate Fits(tx: Transaction, status: Status) {
    if tx.pending then status in {PENDING, APPROVED, CANCELED} else status == CREATED
  }

  // ---------- legs ----------

  predicate ActsAs(side: map<string, Leg>, dir: Direction, e: Effect) {
    forall k :: k in side ==> LegSigns(side[k].amount, dir) == e
  }

  lemma SourcesAct(r: map<string, Amount>, pending: bool, status: Status, routed: bool, dir: Direction)
    requires if pending then status in {PENDING, APPROVED, CANCELED} else status == CREATED
    requires forall k :: k in r ==>
      && r[k].operation == DetermineOperation(pending, true, status).0
      && r[k].transactionType == status && !r[k].routeValidation
    ensures ActsAs(LegsOf(Routed(r, status, routed)), dir, SourceEffect(status, routed, dir))
  {
  }

  lemma DestinationsAct(r: map<string, Amount>, pending: bool, status: Status, dir: Direction)
    requires if pending then status in {PENDING, APPROVED, CANCELED} else status == CREATED
    requires forall k :: k in r ==>
      && r[k].operation == DetermineOperation(pending, false, status).0
      && r[k].transactionType == status && !r[k].routeValidation
    ensures ActsAs(LegsOf(r), dir, DestinationEffect(status, dir))
  {
  }

  /** From `before` to `after` the row moved by amount v, with the signs of e. */
  predicate Moved(before: Rows, after: Rows, row: string, e: Effect, v: real) {
    && before.Keys == after.Keys && row in before
    && after[row].direction == before[row].direction
    && after[row].available == before[row].available + e.available.Of(v)
    && after[row].onHold == before[row].onHold + e.onHold.Of(v)
  }

  lemma MovedChain(a: Rows, b: Rows, c: Rows, row: string, e: Effect, v: real, w: real)
    requires Moved(a, b, row, e, v) && Moved(b, c, row, e, w)
    ensures Moved(a, c, row, e, v + w)
  {
  }

  /** The part of a leg's value that falls on a row. */
  function ValueOn(leg: Leg, row: string): real {
    if leg.row == row then leg.amount.value else 0.0
  }

  function ValuesOn(side: map<string, Leg>, row: string): map<string, real> {
    map k | k in side :: ValueOn(side[k], row)
  }

  lemma ApplyOneFrame(rows: Rows, leg: Leg, row: string)
    requires row in rows
    ensures ApplyOne(rows, leg).Keys == rows.Keys && ApplyOne(rows, leg)[row].direction == rows[row].direction
  {
    LegSignsCorrect(leg.amount, rows[row]);
  }

  /** One leg, seen from one row. */
  lemma ApplyOneMoney(rows: Rows, leg: Leg, row: string)
    requires row in rows
    ensures Moved(rows, ApplyOne(rows, leg), row, LegSigns(leg.amount, rows[row].direction), ValueOn(leg, row))
  {
    LegSignsCorrect(leg.amount, rows[row]);
  }

  lemma ApplySideStep(rows: Rows, side: map<string, Leg>, k: string, row: string, e: Effect, rest: real, total: real)
    requires row in rows && k in side && LegSigns(side[k].amount, rows[row].direction) == e
    requires total == ValueOn(side[k], row) + rest
    requires Moved(ApplyOne(rows, side[k]), ApplySide(ApplyOne(rows, side[k]), side - {k}), row, e, rest)
    ensures Moved(rows, ApplySide(rows, side), row, e, total)
  {
    ApplyAnyFirst(rows, side, k);
    ApplyOneMoney(rows, side[k], row);
    MovedChain(rows, ApplyOne(rows, side[k]), ApplySide(rows, side), row, e, ValueOn(side[k], row), rest);
  }

  lemma ValuesOnTake(side: map<string, Leg>, k: string, row: string)
    requires k in side
    ensures Sum(ValuesOn(side, row)) == ValueOn(side[k], row) + Sum(ValuesOn(side - {k}, row))
  {
    SumTake(ValuesOn(side, row), k);
    assert ValuesOn(side, row) - {k} == ValuesOn(side - {k}, row);
  }

  lemma {:induction false} ApplySideMoney(rows: Rows, side: map<string, Leg>, row: string, e: Effect, total: real)
    requires row in rows && ActsAs(side, rows[row].direction, e)
    requires total == Sum(ValuesOn(side, row))
    ensures Moved(rows, ApplySide(rows, side), row, e, total)
    decreases |side|
  {
    if side == map[] {
      assert ValuesOn(side, row) == map[];
    } else {
      var k :| k in side;
      var rest := Sum(ValuesOn(side - {k}, row));
      assert (side - {k}).Keys == side.Keys - {k};
      ValuesOnTake(side, k, row);
      ApplyOneFrame(rows, side[k], row);
      ApplySideMoney(ApplyOne(rows, side[k]), side - {k}, row, e, rest);
      ApplySideStep(rows, side, k, row, e, rest, total);
    }
  }

  // ---------- posting ----------

  lemma ResolvedSourcesAct(tx: Transaction, status: Status, routed: bool, dir: Direction)
    requires Shaped(tx) && Fits(tx, status)
    ensures ActsAs(LegsOf(Routed(Resolved(ConcatAll(tx.from), ContextOf(tx, status)), status, routed)), dir,
                   SourceEffect(status, routed, dir))
  {
    var c := ContextOf(tx, status);
    var m := Resolved(ConcatAll(tx.from), c);
    forall k | k in m
      ensures m[k].operation == DetermineOperation(tx.pending, true, status).0
      ensures m[k].transactionType == status && !m[k].routeValidation
    {
      ResolvedUniform(ConcatAll(tx.from), c, true, k);
    }
    SourcesAct(m, tx.pending, status, routed, dir);
  }

  lemma ResolvedDestinationsAct(tx: Transaction, status: Status, dir: Direction)
    requires Shaped(tx) && Fits(tx, status)
    ensures ActsAs(LegsOf(Resolved(ConcatAll(tx.to), ContextOf(tx, status))), dir, DestinationEffect(status, dir))
  {
    var c := ContextOf(tx, status);
    var m := Resolved(ConcatAll(tx.to), c);
    forall k | k in m
      ensures m[k].operation == DetermineOperation(tx.pending, false, status).0
      ensures m[k].transactionType == status && !m[k].routeValidation
    {
      ResolvedUniform(ConcatAll(tx.to), c, false, k);
    }
    DestinationsAct(m, tx.pending, status, dir);
  }

  /** Values of the entries filed under a row, however the map is presented. */
  lemma LegValues(m: map<string, Amount>, status: Status, routed: bool, row: string)
    ensures Sum(ValuesOn(LegsOf(Routed(m, status, routed)), row)) == Sum(ValuesWhere(m, OnRow(row)))
  {
    var all, some := ValuesOn(LegsOf(Routed(m, status, routed)), row), ValuesWhere(m, OnRow(row));
    SumOfNonZero(all, some);
  }

  lemma PostSums(tx: Transaction, status: Status, routed: bool, row: string)
    requires Shaped(tx)
    ensures var c := ContextOf(tx, status);
            && Sum(ValuesOn(LegsOf(Routed(Resolved(ConcatAll(tx.from), c), status, routed)), row)) == SourceOn(tx, row)
            && Sum(ValuesOn(LegsOf(Resolved(ConcatAll(tx.to), c)), row)) == DestinationOn(tx, row)
  {
    var c := ContextOf(tx, status);
    SideRows(tx.from, true, c, row);
    SideRows(tx.to, false, c, row);
    LegValues(Resolved(ConcatAll(tx.from), c), status, routed, row);
    LegValues(Resolved(ConcatAll(tx.to), c), status, false, row);
  }

  ghost function Applied(rows: Rows, tx: Transaction, status: Status, routed: bool): Rows {
    var c := ContextOf(tx, status);
    ApplySide(ApplySide(rows, LegsOf(Routed(Resolved(ConcatAll(tx.from), c), status, routed))),
              LegsOf(Resolved(ConcatAll(tx.to), c)))
  }

  lemma PostIs(rows: Rows, tx: Transaction, status: Status, routed: bool)
    requires Post(rows, tx, status, routed).Ok?
    ensures Post(rows, tx, status, routed).value == Applied(rows, tx, status, routed)
  {
  }

  lemma AppliedMoney(rows: Rows, tx: Transaction, status: Status, routed: bool, row: string)
    requires Shaped(tx) && Fits(tx, status) && row in rows
    ensures exists mid ::
      && Moved(rows, mid, row, SourceEffect(status, routed, rows[row].direction), SourceOn(tx, row))
      && Moved(mid, Applied(rows, tx, status, routed), row,
               DestinationEffect(status, rows[row].direction), DestinationOn(tx, row))
  {
    var c, dir := ContextOf(tx, status), rows[row].direction;
    var from := LegsOf(Routed(Resolved(ConcatAll(tx.from), c), status, routed));
    var to := LegsOf(Resolved(ConcatAll(tx.to), c));
    PostSums(tx, status, routed, row);
    ResolvedSourcesAct(tx, status, routed, dir);
    ApplySideMoney(rows, from, row, SourceEffect(status, routed, dir), SourceOn(tx, row));
    ResolvedDestinationsAct(tx, status, dir);
    ApplySideMoney(ApplySide(rows, from), to, row, DestinationEffect(status, dir), DestinationOn(tx, row));
  }

  /** Posting a transaction that is accepted moves each row by its table entry. */
  lemma PostEffect(rows: Rows, tx: Transaction, status: Status, routed: bool, row: string)
    requires Shaped(tx) && Fits(tx, status) && row in rows && Post(rows, tx, status, routed).Ok?
    ensures var after, dir := Post(rows, tx, status, routed).value, rows[row].direction;
            && after.Keys == rows.Keys && after[row].direction == dir
            && MoneyOf(after[row]) == MoneyOf(rows[row]).Plus(Move(ClaimOn(tx, row), status, routed, dir))
  {
    PostIs(rows, tx, status, routed);
    AppliedMoney(rows, tx, status, routed, row);
  }

  /** Holding and canceling leave a row alone from which nothing is taken, whatever is to arrive
      there, unless it is debit-direction. */
  lemma DestinationsUntouched(rows: Rows, tx: Transaction, status: Status, routed: bool, row: string)
    requires Shaped(tx) && Fits(tx, status) && status in {PENDING, CANCELED} && Post(rows, tx, status, routed).Ok?
    requires row in rows && rows[row].direction != DebitDirection && SourceOn(tx, row) == 0.0
    ensures row in Post(rows, tx, status, routed).value
    ensures MoneyOf(Post(rows, tx, status, routed).value[row]) == MoneyOf(rows[row])
  {
    PostEffect(rows, tx, status, routed, row);
  }

  predicate RowsKnown(keys: set<string>, es: Entries) {
    forall i :: 0 <= i < |es| && Contributes(es[i]) ==> AliasKey(es[i].accountAlias, es[i].balanceKey) in keys
  }

  /** Whether a transaction can be posted at all: a matter of its raw entries and of which rows
      exist. */
  ghost predicate Admissible(keys: set<string>, tx: Transaction) {
    && Shaped(tx)
    && Total(tx.from, tx.value) == tx.value == Total(tx.to, tx.value)
    && !(exists i :: AmbiguousAt(tx, i))
    && RowsKnown(keys, tx.from) && RowsKnown(keys, tx.to)
  }

  lemma RowsPresentIff(rows: Rows, es: Entries, c: Context)
    requires forall i :: 0 <= i < |es| ==> '#' !in es[i].accountAlias
    ensures RowsPresent(rows, Resolved(ConcatAll(es), c)) <==> RowsKnown(rows.Keys, es)
  {
    var cs := ConcatAll(es);
    var m := Resolved(cs, c);
    if RowsPresent(rows, m) {
      forall i | 0 <= i < |es| && Contributes(es[i])
        ensures AliasKey(es[i].accountAlias, es[i].balanceKey) in rows.Keys
      {
        KeyResolvedIff(es, c, i, es[i].accountAlias, es[i].balanceKey);
        ConcatKeyParts(i, es[i].accountAlias, es[i].balanceKey);
      }
    }
    if RowsKnown(rows.Keys, es) {
      forall k | k in m ensures SplitAliasWithKey(k) in rows {
        ResolvedKeys(cs, c, k);
        var j :| 0 <= j < |cs| && cs[j].accountAlias == k;
        ConcatRaw(es, j);
        KeyResolvedIff(es, c, j, es[j].accountAlias, es[j].balanceKey);
      }
    }
  }

  /** Posting is accepted for every status or for none, with or without route validation. */
  lemma PostAcceptedIff(rows: Rows, tx: Transaction, status: Status, routed: bool)
    requires Shaped(tx)
    ensures Post(rows, tx, status, routed).Ok? <==> Admissible(rows.Keys, tx)
  {
    AcceptedIff(tx, status);
    RowsPresentIff(rows, tx.from, ContextOf(tx, status));
    RowsPresentIff(rows, tx.to, ContextOf(tx, status));
  }

  // ---------- what the create handler posts and stores ----------

  /** Whether a transaction can be created: a positive value, postable as it stands, and no positive
      remainder shared. */
  ghost predicate Creatable(keys: set<string>, tx: Transaction) {
    WellFormed(tx) && tx.value > 0.0 && Admissible(keys, tx) && TameTransaction(tx)
  }

  /** What is posted on a row when a transaction is created: its claim less the positive remainder
      of each side that belongs to the row. */
  function PostedOn(tx: Transaction, row: string): Claim {
    Claim(SourceOn(tx, row) - Shortfall(tx.from, tx.value, row),
          DestinationOn(tx, row) - Shortfall(tx.to, tx.value, row))
  }

  lemma RowsKnownAgain(keys: set<string>, es: Entries, c: Context)
    ensures RowsKnown(keys, Rewritten(es, c)) <==> RowsKnown(keys, es)
  {
    var again := Rewritten(es, c);
    forall i | 0 <= i < |es|
      ensures Contributes(again[i]) == Contributes(es[i])
      ensures again[i].accountAlias == es[i].accountAlias && again[i].balanceKey == es[i].balanceKey
    {
    }
  }

  lemma AdmissibleAgain(keys: set<string>, tx: Transaction, status: Status)
    requires WellFormed(tx) && Admissible(keys, tx)
    ensures Admissible(keys, Again(tx, status)) <==> TameTransaction(tx)
  {
    var c := ContextOf(tx, status);
    AgainShaped(tx, status);
    forall i: nat ensures AmbiguousAt(Again(tx, status), i) == AmbiguousAt(tx, i) {
      AgainAmbiguous(tx, status, i);
    }
    RowsKnownAgain(keys, tx.from, c);
    RowsKnownAgain(keys, tx.to, c);
    SecondTotal(tx.from, c);
    SecondTotal(tx.to, c);
  }

  /** The stored body claims what the input claimed and can be posted like it. */
  lemma BodyIs(keys: set<string>, tx: Transaction)
    requires Creatable(keys, tx)
    ensures WellFormed(Body(tx)) && Admissible(keys, Body(tx)) && Body(tx).pending == tx.pending
  {
    var status := tx.InitialStatus();
    var c := ContextOf(tx, status);
    AdmissibleAgain(keys, tx, status);
    AgainShaped(Again(tx, status), status);
    forall i: nat ensures AmbiguousAt(Body(tx), i) == AmbiguousAt(Again(tx, status), i) {
      AgainAmbiguous(Again(tx, status), status, i);
    }
    RowsKnownAgain(keys, Rewritten(tx.from, c), c);
    RowsKnownAgain(keys, Rewritten(tx.to, c), c);
    TwiceTwins(tx.from, c);
    TwiceTwins(tx.to, c);
    TwinTotals(Body(tx).from, tx.from, tx.value);
    TwinTotals(Body(tx).to, tx.to, tx.value);
  }

  lemma BodyClaims(tx: Transaction, row: string)
    requires WellFormed(tx) && TameTransaction(tx)
    ensures ClaimOn(Body(tx), row) == ClaimOn(tx, row)
  {
    var c := ContextOf(tx, tx.InitialStatus());
    ThirdRowTotal(tx.from, c, row);
    ThirdRowTotal(tx.to, c, row);
  }

  lemma PostedClaims(tx: Transaction, status: Status, row: string)
    requires WellFormed(tx) && TameTransaction(tx)
    ensures ClaimOn(Again(tx, status), row) == PostedOn(tx, row)
  {
    var c := ContextOf(tx, status);
    SecondRowTotal(tx.from, c, row);
    SecondRowTotal(tx.to, c, row);
  }

  /** Creation is accepted exactly for creatable transactions, whatever the rows hold. */
  lemma PostAgainAcceptedIff(rows: Rows, tx: Transaction, routed: bool)
    requires WellFormed(tx)
    ensures PostAgain(rows, tx, routed).Ok? <==> Creatable(rows.Keys, tx)
  {
    var status := tx.InitialStatus();
    RawAcceptedIff(tx, status);
    AgainShaped(tx, status);
    PostAcceptedIff(rows, Again(tx, status), status, routed);
    if Validate(tx, status).Ok? && Admissible(rows.Keys, Again(tx, status)) {
      AdmissibleBefore(rows.Keys, tx, status);
    }
    if Admissible(rows.Keys, tx) {
      AdmissibleAgain(rows.Keys, tx, status);
    }
  }

  lemma AdmissibleBefore(keys: set<string>, tx: Transaction, status: Status)
    requires Shaped(tx) && Admissible(keys, Again(tx, status))
    requires Total(tx.from, tx.value) == tx.value == Total(tx.to, tx.value)
    ensures Admissible(keys, tx)
  {
    var c := ContextOf(tx, status);
    forall i: nat ensures AmbiguousAt(tx, i) == AmbiguousAt(Again(tx, status), i) {
      AgainAmbiguous(tx, status, i);
    }
    RowsKnownAgain(keys, tx.from, c);
    RowsKnownAgain(keys, tx.to, c);
  }

  /** An accepted creation moves each row by its table entry for what is posted, which is short of
      the claim by the positive remainder of the `remaining` entry on that row. */
  lemma PostAgainEffect(rows: Rows, tx: Transaction, routed: bool, row: string)
    requires WellFormed(tx) && row in rows && PostAgain(rows, tx, routed).Ok?
    ensures var after, dir := PostAgain(rows, tx, routed).value, rows[row].direction;
            && after.Keys == rows.Keys && after[row].direction == dir
            && MoneyOf(after[row]) ==
               MoneyOf(rows[row]).Plus(Move(PostedOn(tx, row), tx.InitialStatus(), routed, dir))
  {
    var status := tx.InitialStatus();
    PostAgainAcceptedIff(rows, tx, routed);
    AgainShaped(tx, status);
    PostEffect(rows, Again(tx, status), status, routed, row);
    PostedClaims(tx, status, row);
  }
}
