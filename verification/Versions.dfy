/** The version of a row counts the operations that took effect on it. */
module RowVersions {
  import opened TransactionTypes
  import opened Aliases
  import opened BalanceEngine
  import opened Resolver
  import opened SendValidation
  import opened Reresolution
  import opened LedgerModel
  import opened LedgerEffects

  // ---------- counting entries ----------

  /** How many of the selected entries put an amount into the map. */
  function CountWhere(es: Entries, selected: seq<bool>): nat
    requires |selected| == |es|
  {
    if es == [] then 0
    else CountWhere(Init(es), Init(selected)) + (if Contributes(Last(es)) && Last(selected) then 1 else 0)
  }

  /** How many entries of a raw side act on a row. */
  function EntriesOn(es: Entries, row: string): nat {
    CountWhere(es, RowPicks(es, row))
  }

  function KeysWhere(m: map<string, Amount>, p: string -> bool): set<string> {
    set k | k in m && p(k)
  }

  lemma {:induction false} MapCountIsListCount(es: Entries, c: Context, p: string -> bool)
    requires DistinctAliases(es)
    ensures |KeysWhere(Resolved(es, c), p)| == CountWhere(es, Picks(es, p))
  {
    if es == [] {
      assert KeysWhere(Resolved(es, c), p) == {};
    } else {
      MapCountIsListCount(Init(es), c, p);
      assert Init(Picks(es, p)) == Picks(Init(es), p);
      var k, m := Last(es).accountAlias, Resolved(Init(es), c);
      ResolvedKeys(Init(es), c, k);
      assert k !in m;
      var before, after := KeysWhere(m, p), KeysWhere(Resolved(es, c), p);
      if Contributes(Last(es)) && p(k) {
        assert after == before + {k};
      } else {
        assert after == before;
      }
    }
  }

  lemma {:induction false} CountAlike(a: Entries, b: Entries, selected: seq<bool>)
    requires |a| == |b| == |selected|
    requires forall i :: 0 <= i < |a| ==> Contributes(a[i]) == Contributes(b[i])
    ensures CountWhere(a, selected) == CountWhere(b, selected)
  {
    if a != [] {
      CountAlike(Init(a), Init(b), Init(selected));
    }
  }

  lemma SideCount(es: Entries, isFrom: bool, c: Context, row: string)
    requires ShapedSide(es, isFrom)
    ensures |KeysWhere(Resolved(ConcatAll(es), c), OnRow(row))| == EntriesOn(es, row)
  {
    ConcatAllDistinct(es);
    MapCountIsListCount(ConcatAll(es), c, OnRow(row));
    ConcatPicks(es, row);
    CountAlike(ConcatAll(es), es, RowPicks(es, row));
  }

  // ---------- applying a side ----------

  function LegsOn(side: map<string, Leg>, row: string): set<string> {
    set k | k in side && side[k].row == row
  }

  /** The row after n operations: one version each, and nothing else but the money touched. */
  predicate Advanced(before: Balance, after: Balance, n: nat) {
    after == before.(available := after.available, onHold := after.onHold, version := before.version + n)
  }

  predicate EachCounts(side: map<string, Leg>, dir: Direction, ops: nat) {
    forall k :: k in side ==> LegOps(side[k].amount, dir) == ops
  }

  lemma ApplyOneAdvances(rows: Rows, leg: Leg, row: string)
    requires row in rows
    ensures row in ApplyOne(rows, leg)
    ensures Advanced(rows[row], ApplyOne(rows, leg)[row],
                     if leg.row == row then LegOps(leg.amount, rows[row].direction) else 0)
  {
    LegVersion(leg.amount, rows[row]);
  }

  lemma AdvancedChain(a: Balance, b: Balance, c: Balance, n: nat, m: nat)
    requires Advanced(a, b, n) && Advanced(b, c, m)
    ensures Advanced(a, c, n + m)
  {
  }

  lemma LegsOnTake(side: map<string, Leg>, k: string, row: string, ops: nat)
    requires k in side
    ensures ops * |LegsOn(side, row)| == ops * |LegsOn(side - {k}, row)| + (if side[k].row == row then ops else 0)
  {
    var rest := side - {k};
    if side[k].row == row {
      assert LegsOn(side, row) == LegsOn(rest, row) + {k};
    } else {
      assert LegsOn(side, row) == LegsOn(rest, row);
    }
  }

  lemma ApplyStep(rows: Rows, side: map<string, Leg>, k: string, row: string, n: nat, rest: nat)
    requires k in side && row in rows && row in ApplyOne(rows, side[k])
    requires n == if side[k].row == row then LegOps(side[k].amount, rows[row].direction) else 0
    requires var mid := ApplyOne(rows, side[k]);
             row in ApplySide(mid, side - {k}) && Advanced(mid[row], ApplySide(mid, side - {k})[row], rest)
    ensures row in ApplySide(rows, side) && Advanced(rows[row], ApplySide(rows, side)[row], n + rest)
  {
    var mid := ApplyOne(rows, side[k]);
    ApplyAnyFirst(rows, side, k);
    ApplyOneAdvances(rows, side[k], row);
    AdvancedChain(rows[row], mid[row], ApplySide(mid, side - {k})[row], n, rest);
  }

  lemma {:induction false} ApplySideAdvances(rows: Rows, side: map<string, Leg>, row: string, ops: nat, n: nat)
    requires row in rows && EachCounts(side, rows[row].direction, ops) && n == ops * |LegsOn(side, row)|
    ensures row in ApplySide(rows, side)
    ensures Advanced(rows[row], ApplySide(rows, side)[row], n)
    decreases |side|
  {
    if side == map[] {
      assert LegsOn(side, row) == {};
    } else {
      var k :| k in side;
      var rest := ops * |LegsOn(side - {k}, row)|;
      assert (side - {k}).Keys == side.Keys - {k};
      LegsOnTake(side, k, row, ops);
      ApplyOneAdvances(rows, side[k], row);
      ApplySideAdvances(ApplyOne(rows, side[k]), side - {k}, row, ops, rest);
      ApplyStep(rows, side, k, row, if side[k].row == row then ops else 0, rest);
    }
  }

  // ---------- posting ----------

  /** Operations per source entry: two where a source is split. */
  function SourceOps(status: Status, routed: bool): nat {
    if routed && (status == PENDING || status == CANCELED) then 2 else 1
  }

  /** Operations per destination entry: none while nothing arrives. */
  function DestinationOps(status: Status, dir: Direction): nat {
    if dir == DebitDirection || status == CREATED || status == APPROVED then 1 else 0
  }

  lemma SourcesCount(r: map<string, Amount>, pending: bool, status: Status, routed: bool, dir: Direction)
    requires if pending then status in {PENDING, APPROVED, CANCELED} else status == CREATED
    requires forall k :: k in r ==>
      && r[k].operation == DetermineOperation(pending, true, status).0
      && r[k].transactionType == status && !r[k].routeValidation
    ensures EachCounts(LegsOf(Routed(r, status, routed)), dir, SourceOps(status, routed))
  {
  }

  lemma DestinationsCount(r: map<string, Amount>, pending: bool, status: Status, dir: Direction)
    requires if pending then status in {PENDING, APPROVED, CANCELED} else status == CREATED
    requires forall k :: k in r ==>
      && r[k].operation == DetermineOperation(pending, false, status).0
      && r[k].transactionType == status && !r[k].routeValidation
    ensures EachCounts(LegsOf(r), dir, DestinationOps(status, dir))
  {
  }

  lemma LegsAreKeys(m: map<string, Amount>, status: Status, routed: bool, row: string)
    ensures LegsOn(LegsOf(Routed(m, status, routed)), row) == KeysWhere(m, OnRow(row))
  {
  }

  lemma SourcesAdvance(rows: Rows, tx: Transaction, status: Status, routed: bool, row: string)
    requires Shaped(tx) && Fits(tx, status) && row in rows
    ensures var side := LegsOf(Routed(Resolved(ConcatAll(tx.from), ContextOf(tx, status)), status, routed));
            && row in ApplySide(rows, side)
            && Advanced(rows[row], ApplySide(rows, side)[row], SourceOps(status, routed) * EntriesOn(tx.from, row))
  {
    var c := ContextOf(tx, status);
    var m := Resolved(ConcatAll(tx.from), c);
    forall k | k in m
      ensures m[k].operation == DetermineOperation(tx.pending, true, status).0
      ensures m[k].transactionType == status && !m[k].routeValidation
    {
      ResolvedUniform(ConcatAll(tx.from), c, true, k);
    }
    SourcesCount(m, tx.pending, status, routed, rows[row].direction);
    LegsAreKeys(m, status, routed, row);
    SideCount(tx.from, true, c, row);
    ApplySideAdvances(rows, LegsOf(Routed(m, status, routed)), row, SourceOps(status, routed),
                      SourceOps(status, routed) * EntriesOn(tx.from, row));
  }

  lemma DestinationsAdvance(rows: Rows, tx: Transaction, status: Status, row: string)
    requires Shaped(tx) && Fits(tx, status) && row in rows
    ensures var side := LegsOf(Resolved(ConcatAll(tx.to), ContextOf(tx, status)));
            && row in ApplySide(rows, side)
            && Advanced(rows[row], ApplySide(rows, side)[row],
                        DestinationOps(status, rows[row].direction) * EntriesOn(tx.to, row))
  {
    var c := ContextOf(tx, status);
    var m := Resolved(ConcatAll(tx.to), c);
    forall k | k in m
      ensures m[k].operation == DetermineOperation(tx.pending, false, status).0
      ensures m[k].transactionType == status && !m[k].routeValidation
    {
      ResolvedUniform(ConcatAll(tx.to), c, false, k);
    }
    DestinationsCount(m, tx.pending, status, rows[row].direction);
    LegsAreKeys(m, status, false, row);
    SideCount(tx.to, false, c, row);
    var ops := DestinationOps(status, rows[row].direction);
    ApplySideAdvances(rows, LegsOf(m), row, ops, ops * EntriesOn(tx.to, row));
  }

  /** How many operations of a transaction take effect on a row. */
  function OpsOn(tx: Transaction, status: Status, routed: bool, row: string, dir: Direction): nat {
    SourceOps(status, routed) * EntriesOn(tx.from, row) + DestinationOps(status, dir) * EntriesOn(tx.to, row)
  }

  lemma AppliedVersion(rows: Rows, tx: Transaction, status: Status, routed: bool, row: string)
    requires Shaped(tx) && Fits(tx, status) && row in rows
    ensures var after := Applied(rows, tx, status, routed);
            row in after && Advanced(rows[row], after[row], OpsOn(tx, status, routed, row, rows[row].direction))
  {
    var c := ContextOf(tx, status);
    var mid := ApplySide(rows, LegsOf(Routed(Resolved(ConcatAll(tx.from), c), status, routed)));
    SourcesAdvance(rows, tx, status, routed, row);
    DestinationsAdvance(mid, tx, status, row);
    AdvancedChain(rows[row], mid[row], Applied(rows, tx, status, routed)[row],
                  SourceOps(status, routed) * EntriesOn(tx.from, row),
                  DestinationOps(status, rows[row].direction) * EntriesOn(tx.to, row));
  }

  /** A posting advances a row's version by the operations that take effect on it: one per source
      entry, or two where it is split, and one per destination entry unless nothing arrives yet. It
      changes no other field but the money. */
  lemma PostVersion(rows: Rows, after: Rows, tx: Transaction, status: Status, routed: bool, row: string)
    requires Shaped(tx) && Fits(tx, status) && row in rows && Post(rows, tx, status, routed) == Ok(after)
    ensures row in after && Advanced(rows[row], after[row], OpsOn(tx, status, routed, row, rows[row].direction))
  {
    PostIs(rows, tx, status, routed);
    AppliedVersion(rows, tx, status, routed, row);
  }

  lemma OpsAgain(tx: Transaction, status: Status, row: string, routed: bool, dir: Direction)
    ensures OpsOn(Again(tx, status), status, routed, row, dir) == OpsOn(tx, status, routed, row, dir)
  {
    var c := ContextOf(tx, status);
    RewrittenPicks(tx.from, c, row);
    RewrittenPicks(tx.to, c, row);
    CountAlike(Rewritten(tx.from, c), tx.from, RowPicks(tx.from, row));
    CountAlike(Rewritten(tx.to, c), tx.to, RowPicks(tx.to, row));
  }

  /** A creation counts the same, though it posts what a first resolution left behind. */
  lemma PostAgainVersion(rows: Rows, after: Rows, tx: Transaction, routed: bool, row: string)
    requires Shaped(tx) && row in rows && PostAgain(rows, tx, routed) == Ok(after)
    ensures row in after
    ensures Advanced(rows[row], after[row], OpsOn(tx, tx.InitialStatus(), routed, row, rows[row].direction))
  {
    var status := tx.InitialStatus();
    AgainShaped(tx, status);
    PostVersion(rows, after, Again(tx, status), status, routed, row);
    OpsAgain(tx, status, row, routed, rows[row].direction);
  }
}
