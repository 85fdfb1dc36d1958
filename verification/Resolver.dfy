/** CalculateTotal of pkg/mtransaction/validations.go: amounts, shares and `remaining` entries of
    one side of a transaction become a total and one amount per entry key. */
module Resolver {
  import opened TransactionTypes
  import opened Aliases
  import opened BalanceEngine
  import opened Sums

  /** An Amount held by pointer. */
  class AmountCell {
    var content: Amount

    constructor (content: Amount)
      ensures this.content == content
    {
      this.content := content;
    }
  }

  /** What CalculateTotal reads from the transaction besides the entries. */
  datatype Context = Context(asset: string, value: real, pending: bool, status: Status)

  type Entries = seq<FromTo<Amount>>

  // ---------- contribution of one entry ----------

  predicate HasShare<A>(e: FromTo<A>) {
    e.share.Some? && e.share.value.percentage != 0
  }

  predicate HasAmount(e: FromTo<Amount>) {
    e.amount.Some? && e.amount.value.value > 0.0
  }

  function ShareValue(send: real, s: Share): real {
    var ofPercentage := if s.percentageOfPercentage == 0 then 100 else s.percentageOfPercentage;
    send * (s.percentage as real / 100.0) * (ofPercentage as real / 100.0)
  }

  /** Share and amount together: what an entry takes out of the remainder. */
  function Explicit(e: FromTo<Amount>, send: real): real {
    (if HasShare(e) then ShareValue(send, e.share.value) else 0.0) +
    (if HasAmount(e) then e.amount.value.value else 0.0)
  }

  predicate OneKind(e: FromTo<Amount>) {
    !(HasShare(e) && HasAmount(e)) && !(e.remaining && (HasShare(e) || HasAmount(e)))
  }

  // ---------- the fold ----------

  function Init<T>(s: seq<T>): seq<T>
    requires s != []
  {
    s[..|s| - 1]
  }

  function Last<T>(s: seq<T>): T
    requires s != []
  {
    s[|s| - 1]
  }

  /** `remaining.Value` after the entries. */
  function Left(es: Entries, send: real): real {
    if es == [] then send else Left(Init(es), send) - Explicit(Last(es), send)
  }

  /** The record the loop starts the remainder from. */
  function InitialRecord(c: Context): Amount {
    Amount(c.asset, c.value, OtherOperation(""), c.status, EmptyDirection, false)
  }

  /** What one entry does to that record. */
  function RecordStep(r: Amount, e: FromTo<Amount>, c: Context): Amount {
    var taken := r.(value := r.value - Explicit(e, c.value));
    if !e.remaining then taken
    else
      var (operation, direction) := DetermineOperation(c.pending, e.isFrom, c.status);
      taken.(operation := operation, direction := direction)
  }

  /** The shared record after the entries. */
  function Record(es: Entries, c: Context): Amount {
    if es == [] then InitialRecord(c) else RecordStep(Record(Init(es), c), Last(es), c)
  }

  lemma {:induction false} RecordIs(es: Entries, c: Context)
    ensures var r := Record(es, c);
            r.asset == c.asset && r.value == Left(es, c.value) && r.transactionType == c.status && !r.routeValidation
  {
    if es != [] {
      RecordIs(Init(es), c);
    }
  }

  function Total(es: Entries, send: real): real {
    if es == [] then 0.0
    else Total(Init(es), send) + Explicit(Last(es), send) + (if Last(es).remaining then Left(es, send) else 0.0)
  }

  /** The value that stays in the map for the last entry: the last of up to three writes. */
  function LastValue(es: Entries, send: real): Option<real>
    requires es != []
  {
    var e := Last(es);
    if e.remaining then Some(Left(es, send))
    else if HasAmount(e) then Some(e.amount.value.value)
    else if HasShare(e) then Some(ShareValue(send, e.share.value))
    else None
  }

  function LastAmount(es: Entries, c: Context): Amount
    requires es != [] && LastValue(es, c.value).Some?
  {
    var e := Last(es);
    var (operation, direction) := DetermineOperation(c.pending, e.isFrom, c.status);
    var asset := if !e.remaining && HasAmount(e) then e.amount.value.asset else c.asset;
    Amount(asset, LastValue(es, c.value).value, operation, c.status, direction, false)
  }

  function Resolved(es: Entries, c: Context): map<string, Amount> {
    if es == [] then map[]
    else if LastValue(es, c.value).None? then Resolved(Init(es), c)
    else Resolved(Init(es), c)[Last(es).accountAlias := LastAmount(es, c)]
  }

  function LookupKey<A>(e: FromTo<A>): string {
    AliasKey(SplitAlias(e.accountAlias), e.balanceKey)
  }

  function LookupKeys(es: Entries): seq<string> {
    if es == [] then [] else LookupKeys(Init(es)) + [LookupKey(Last(es))]
  }

  function Routes(es: Entries): map<string, string> {
    if es == [] then map[]
    else if Last(es).routeId.None? then Routes(Init(es))
    else Routes(Init(es))[Last(es).accountAlias := Last(es).routeId.value]
  }

  // ---------- what resolving leaves behind ----------

  /** Every `remaining` entry given the same amount. */
  function Filled(es: Entries, a: Amount): (r: Entries)
    ensures |r| == |es|
    ensures forall i :: 0 <= i < |es| ==> r[i] == if es[i].remaining then es[i].(amount := Some(a)) else es[i]
  {
    seq(|es|, i requires 0 <= i < |es| => if es[i].remaining then es[i].(amount := Some(a)) else es[i])
  }

  /** The entries after resolving: each `remaining` one now also holds the final remainder. */
  function Rewritten(es: Entries, c: Context): Entries {
    Filled(es, Record(es, c))
  }

  // ---------- the loop ----------

  ghost function Cells(es: seq<FromTo<AmountCell>>): set<AmountCell> {
    set e | e in es && e.amount.Some? :: e.amount.value
  }

  function Deref(e: FromTo<AmountCell>): FromTo<Amount>
    reads if e.amount.Some? then {e.amount.value} else {}
  {
    FromTo(e.accountAlias, e.balanceKey, if e.amount.Some? then Some(e.amount.value.content) else None,
           e.share, e.remaining, e.isFrom, e.routeId)
  }

  /** The entries by value. */
  ghost function Snapshot(es: seq<FromTo<AmountCell>>): (r: Entries)
    reads Cells(es)
    ensures |r| == |es|
    ensures forall i :: 0 <= i < |es| ==> r[i] == Deref(es[i])
  {
    seq(|es|, i requires 0 <= i < |es| reads Cells(es) => Deref(es[i]))
  }

  /** Everything the loop has gathered after some entries. */
  datatype Gathered = Gathered(
    total: real,
    amounts: map<string, Amount>,
    keys: seq<string>,
    routes: map<string, string>,
    record: Amount)

  function GatheredFrom(es: Entries, c: Context): Gathered {
    Gathered(Total(es, c.value), Resolved(es, c), LookupKeys(es), Routes(es), Record(es, c))
  }

  /** The share and amount branches: the amount is written last. */
  function PutExplicit(amounts: map<string, Amount>, e: FromTo<Amount>, c: Context): map<string, Amount> {
    var (operation, direction) := DetermineOperation(c.pending, e.isFrom, c.status);
    if HasAmount(e) then
      var a := e.amount.value;
      amounts[e.accountAlias := Amount(a.asset, a.value, operation, c.status, direction, false)]
    else if HasShare(e) then
      var share := ShareValue(c.value, e.share.value);
      amounts[e.accountAlias := Amount(c.asset, share, operation, c.status, direction, false)]
    else amounts
  }

  /** A `remaining` entry overwrites both with the shared record. */
  function PutAmount(amounts: map<string, Amount>, e: FromTo<Amount>, c: Context, record: Amount): map<string, Amount> {
    if e.remaining then amounts[e.accountAlias := record] else PutExplicit(amounts, e, c)
  }

  function PutRoute(routes: map<string, string>, e: FromTo<Amount>): map<string, string> {
    if e.routeId.None? then routes else routes[e.accountAlias := e.routeId.value]
  }

  function Gather(g: Gathered, e: FromTo<Amount>, c: Context): Gathered {
    var record := RecordStep(g.record, e, c);
    Gathered(g.total + Explicit(e, c.value) + (if e.remaining then record.value else 0.0),
             PutAmount(g.amounts, e, c, record), g.keys + [LookupKey(e)], PutRoute(g.routes, e), record)
  }

  lemma ResolvedMore(es: Entries, c: Context)
    requires es != []
    ensures Resolved(es, c) == PutAmount(Resolved(Init(es), c), Last(es), c, Record(es, c))
  {
    RecordIs(es, c);
    RecordIs(Init(es), c);
  }

  lemma GatherMore(s: Entries, i: nat, c: Context)
    requires i < |s|
    ensures GatheredFrom(s[..i + 1], c) == Gather(GatheredFrom(s[..i], c), s[i], c)
  {
    assert Init(s[..i + 1]) == s[..i] && Last(s[..i + 1]) == s[i];
    RecordIs(s[..i + 1], c);
    ResolvedMore(s[..i + 1], c);
  }

  /** The share and amount branches, in that order. */
  method TakeExplicit(e: FromTo<Amount>, c: Context, remaining: AmountCell, total: real, amounts: map<string, Amount>)
    returns (total': real, amounts': map<string, Amount>)
    modifies remaining
    ensures remaining.content == old(remaining.content).(value := old(remaining.content.value) - Explicit(e, c.value))
    ensures total' == total + Explicit(e, c.value)
    ensures amounts' == PutExplicit(amounts, e, c)
  {
    total', amounts' := total, amounts;
    var (operation, direction) := DetermineOperation(c.pending, e.isFrom, c.status);
    if e.share.Some? && e.share.value.percentage != 0 {
      var shareValue := ShareValue(c.value, e.share.value);
      amounts' := amounts'[e.accountAlias := Amount(c.asset, shareValue, operation, c.status, direction, false)];
      total' := total' + shareValue;
      remaining.content := remaining.content.(value := remaining.content.value - shareValue);
    }
    if e.amount.Some? && e.amount.value.value > 0.0 {
      var amount := Amount(e.amount.value.asset, e.amount.value.value, operation, c.status, direction, false);
      amounts' := amounts'[e.accountAlias := amount];
      total' := total' + amount.value;
      remaining.content := remaining.content.(value := remaining.content.value - amount.value);
    }
  }

  lemma PutTwice(amounts: map<string, Amount>, e: FromTo<Amount>, c: Context, record: Amount)
    ensures PutExplicit(amounts, e, c)[e.accountAlias := record] == amounts[e.accountAlias := record]
  {
  }

  /** One iteration. */
  method ResolveEntry(e: FromTo<Amount>, c: Context, remaining: AmountCell,
                      total: real, amounts: map<string, Amount>, keys: seq<string>, routes: map<string, string>)
    returns (total': real, amounts': map<string, Amount>, keys': seq<string>, routes': map<string, string>)
    modifies remaining
    ensures Gathered(total', amounts', keys', routes', remaining.content) ==
            Gather(Gathered(total, amounts, keys, routes, old(remaining.content)), e, c)
  {
    routes' := routes;
    if e.routeId.Some? {
      routes' := routes'[e.accountAlias := e.routeId.value];
    }
    total', amounts' := TakeExplicit(e, c, remaining, total, amounts);
    if e.remaining {
      total' := total' + remaining.content.value;
      var (operation, direction) := DetermineOperation(c.pending, e.isFrom, c.status);
      remaining.content := remaining.content.(operation := operation, direction := direction);
      PutTwice(amounts, e, c, remaining.content);
      amounts' := amounts'[e.accountAlias := remaining.content];
    }
    keys' := keys + [LookupKey(e)];
  }

  /** An entry after the loop: a `remaining` entry points to the shared record. */
  function Relinked(e: FromTo<AmountCell>, remaining: AmountCell): FromTo<AmountCell> {
    if e.remaining then e.(amount := Some(remaining)) else e
  }

  function RelinkFirst(es: seq<FromTo<AmountCell>>, n: nat, remaining: AmountCell): (r: seq<FromTo<AmountCell>>)
    requires n <= |es|
    ensures |r| == |es|
    ensures forall i :: 0 <= i < |es| ==> r[i] == if i < n then Relinked(es[i], remaining) else es[i]
  {
    seq(|es|, i requires 0 <= i < |es| => if i < n then Relinked(es[i], remaining) else es[i])
  }

  /** The body of the loop at index i. */
  method ResolveAt(entries: array<FromTo<AmountCell>>, i: nat, c: Context, remaining: AmountCell,
                   total: real, amounts: map<string, Amount>, keys: seq<string>, routes: map<string, string>)
    returns (total': real, amounts': map<string, Amount>, keys': seq<string>, routes': map<string, string>)
    requires i < entries.Length && entries[i].amount != Some(remaining)
    modifies entries, remaining
    ensures Gathered(total', amounts', keys', routes', remaining.content) ==
            Gather(Gathered(total, amounts, keys, routes, old(remaining.content)), old(Deref(entries[i])), c)
    ensures entries[..] == old(entries[..])[i := Relinked(old(entries[i]), remaining)]
  {
    var e := Deref(entries[i]);
    total', amounts', keys', routes' := ResolveEntry(e, c, remaining, total, amounts, keys, routes);
    if e.remaining {
      entries[i] := entries[i].(amount := Some(remaining));
    }
  }

  lemma RelinkMore(es: seq<FromTo<AmountCell>>, i: nat, remaining: AmountCell)
    requires i < |es|
    ensures RelinkFirst(es, i, remaining)[i := Relinked(es[i], remaining)] == RelinkFirst(es, i + 1, remaining)
  {
  }

  /** By value, relinking fills every `remaining` entry with the shared record. */
  lemma SnapshotRelinked(es: seq<FromTo<AmountCell>>, remaining: AmountCell)
    ensures Snapshot(RelinkFirst(es, |es|, remaining)) == Filled(Snapshot(es), remaining.content)
  {
    var r := RelinkFirst(es, |es|, remaining);
    forall i | 0 <= i < |es| ensures Snapshot(r)[i] == Filled(Snapshot(es), remaining.content)[i] {
      assert r[i] == Relinked(es[i], remaining);
    }
  }

  /** The loop, with the remainder kept in one heap cell that every `remaining` entry ends up
      pointing to. `s` is the list of entries by value before the call. */
  method CalculateTotal(entries: array<FromTo<AmountCell>>, c: Context, ghost s: Entries)
    returns (total: real, amounts: map<string, Amount>, keys: seq<string>,
             routes: map<string, string>, remaining: AmountCell)
    requires s == Snapshot(entries[..])
    modifies entries
    ensures fresh(remaining)
    ensures Gathered(total, amounts, keys, routes, remaining.content) == GatheredFrom(s, c)
    ensures entries[..] == RelinkFirst(old(entries[..]), entries.Length, remaining)
    ensures Snapshot(entries[..]) == Rewritten(s, c)
  {
    ghost var was := entries[..];
    total, amounts, keys, routes := 0.0, map[], [], map[];
    remaining := new AmountCell(InitialRecord(c));

    for i := 0 to entries.Length
      invariant fresh(remaining)
      invariant Gathered(total, amounts, keys, routes, remaining.content) == GatheredFrom(s[..i], c)
      invariant entries[..] == RelinkFirst(was, i, remaining)
    {
      assert entries[i] == was[i] by { assert entries[..][i] == was[i]; }
      assert s[i] == Deref(was[i]);
      GatherMore(s, i, c);
      RelinkMore(was, i, remaining);
      total, amounts, keys, routes := ResolveAt(entries, i, c, remaining, total, amounts, keys, routes);
    }
    assert s[..entries.Length] == s;
    assert s == Snapshot(was);
    SnapshotRelinked(was, remaining);
  }

  // ---------- what the map holds ----------

  /** Values of the keys that satisfy p. */
  function ValuesWhere(m: map<string, Amount>, p: string -> bool): map<string, real> {
    map k | k in m && p(k) :: m[k].value
  }

  function Anywhere(): string -> bool {
    _ => true
  }

  function OnRow(row: string): string -> bool {
    key => SplitAliasWithKey(key) == row
  }

  /** Sum over the list of what the selected entries resolve to. */
  function SumWhere(es: Entries, send: real, selected: seq<bool>): real
    requires |selected| == |es|
  {
    if es == [] then 0.0
    else
      SumWhere(Init(es), send, Init(selected)) +
      match LastValue(es, send)
      case Some(v) => if Last(selected) then v else 0.0
      case None => 0.0
  }

  function Picks<A>(es: seq<FromTo<A>>, p: string -> bool): (r: seq<bool>)
    ensures |r| == |es|
  {
    seq(|es|, i requires 0 <= i < |es| => p(es[i].accountAlias))
  }

  function ResolvedSum(es: Entries, send: real, p: string -> bool): real {
    SumWhere(es, send, Picks(es, p))
  }

  /** Whether an entry puts an amount into the map at all. */
  predicate Contributes(e: FromTo<Amount>) {
    e.remaining || HasAmount(e) || HasShare(e)
  }

  predicate DistinctAliases<A>(es: seq<FromTo<A>>) {
    forall i, j :: 0 <= i < j < |es| ==> es[i].accountAlias != es[j].accountAlias
  }

  lemma {:induction false} ResolvedKeys(es: Entries, c: Context, k: string)
    ensures k in Resolved(es, c) ==> exists i :: 0 <= i < |es| && es[i].accountAlias == k
  {
    if es != [] {
      ResolvedKeys(Init(es), c, k);
    }
  }

  /** Keys of the map: the aliases of the contributing entries. */
  lemma {:induction false} ResolvedKeyIff(es: Entries, c: Context, k: string)
    ensures k in Resolved(es, c) <==> exists i :: 0 <= i < |es| && es[i].accountAlias == k && Contributes(es[i])
  {
    if es != [] {
      ResolvedKeyIff(Init(es), c, k);
      assert forall i :: 0 <= i < |es| - 1 ==> Init(es)[i] == es[i];
    }
  }

  /** No entry is lost to a key collision: the map sums to the list, on any selection of keys. */
  lemma {:induction false} MapSumIsListSum(es: Entries, c: Context, p: string -> bool)
    requires DistinctAliases(es)
    ensures Sum(ValuesWhere(Resolved(es, c), p)) == ResolvedSum(es, c.value, p)
  {
    if es != [] {
      MapSumIsListSum(Init(es), c, p);
      assert Init(Picks(es, p)) == Picks(Init(es), p);
      if LastValue(es, c.value).Some? {
        var k, m := Last(es).accountAlias, Resolved(Init(es), c);
        ResolvedKeys(Init(es), c, k);
        assert k !in m;
        var before, after := ValuesWhere(m, p), ValuesWhere(Resolved(es, c), p);
        if p(k) {
          assert after == before[k := LastAmount(es, c).value];
          SumPut(before, k, LastAmount(es, c).value);
        } else {
          assert after == before;
        }
      }
    }
  }

  /** What an entry of several kinds adds to the total without keeping it in the map. */
  function Overlap(e: FromTo<Amount>, send: real): real {
    if e.remaining then Explicit(e, send)
    else if HasAmount(e) && HasShare(e) then ShareValue(send, e.share.value)
    else 0.0
  }

  function Overlaps(es: Entries, send: real): real {
    if es == [] then 0.0 else Overlaps(Init(es), send) + Overlap(Last(es), send)
  }

  /** On any entries: each kind counts toward the total, the last one written stays in the map. */
  lemma {:induction false} TotalExact(es: Entries, send: real)
    ensures Total(es, send) == ResolvedSum(es, send, Anywhere()) + Overlaps(es, send)
  {
    if es != [] {
      TotalExact(Init(es), send);
      assert Init(Picks(es, Anywhere())) == Picks(Init(es), Anywhere());
    }
  }

  /** On one-kind entries the total is the sum of what the entries resolve to. */
  lemma {:induction false} TotalIsResolvedSum(es: Entries, send: real)
    requires forall i :: 0 <= i < |es| ==> OneKind(es[i])
    ensures Total(es, send) == ResolvedSum(es, send, Anywhere())
  {
    if es != [] {
      TotalIsResolvedSum(Init(es), send);
      assert Init(Picks(es, Anywhere())) == Picks(Init(es), Anywhere());
      assert OneKind(Last(es));
    }
  }

  /** The map of an accepted side sums to the send value. */
  lemma AcceptedMapBalances(es: Entries, c: Context)
    requires DistinctAliases(es) && forall i :: 0 <= i < |es| ==> OneKind(es[i])
    ensures Total(es, c.value) == c.value <==> Sum(ValuesWhere(Resolved(es, c), Anywhere())) == c.value
  {
    MapSumIsListSum(es, c, Anywhere());
    TotalIsResolvedSum(es, c.value);
  }

  // ---------- lists that resolve alike ----------

  /** Same shares, same positive amounts and same `remaining` markers, position by position. */
  predicate Twins(a: Entries, b: Entries) {
    && |a| == |b|
    && forall i :: 0 <= i < |a| ==>
      && a[i].share == b[i].share && a[i].remaining == b[i].remaining
      && HasAmount(a[i]) == HasAmount(b[i])
      && (HasAmount(a[i]) ==> a[i].amount.value.value == b[i].amount.value.value)
  }

  lemma {:induction false} TwinTotals(a: Entries, b: Entries, send: real)
    requires Twins(a, b)
    ensures Left(a, send) == Left(b, send) && Total(a, send) == Total(b, send)
  {
    if a != [] {
      assert Twins(Init(a), Init(b));
      TwinTotals(Init(a), Init(b), send);
    }
  }

  lemma {:induction false} TwinSums(a: Entries, b: Entries, send: real, selected: seq<bool>)
    requires Twins(a, b) && |selected| == |a|
    ensures SumWhere(a, send, selected) == SumWhere(b, send, selected)
  {
    if a != [] {
      assert Twins(Init(a), Init(b));
      TwinSums(Init(a), Init(b), send, Init(selected));
      TwinTotals(a, b, send);
    }
  }

  // ---------- remainders ----------

  predicate Monotone(es: Entries, send: real) {
    forall i :: 0 <= i < |es| ==> Explicit(es[i], send) >= 0.0
  }

  lemma {:induction false} LeftDecreases(es: Entries, send: real, n: nat)
    requires n <= |es| && Monotone(es, send)
    ensures Left(es, send) <= Left(es[..n], send)
    decreases |es|
  {
    if n < |es| {
      LeftDecreases(Init(es), send, n);
      assert Init(es)[..n] == es[..n];
    } else {
      assert es[..n] == es;
    }
  }

  /** Up to the first `remaining` entry the total complements the remainder. */
  lemma {:induction false} TotalBeforeRemaining(es: Entries, send: real)
    requires forall i :: 0 <= i < |es| ==> !es[i].remaining
    ensures Total(es, send) == send - Left(es, send)
  {
    if es != [] {
      TotalBeforeRemaining(Init(es), send);
    }
  }

  predicate FirstRemaining(es: Entries, f: nat) {
    f < |es| && es[f].remaining && forall i :: 0 <= i < f ==> !es[i].remaining
  }

  lemma TotalAtRemaining(es: Entries, send: real, f: nat)
    requires FirstRemaining(es, f)
    ensures Total(es[..f + 1], send) == send
  {
    var p := es[..f + 1];
    assert Init(p) == es[..f] && Last(p) == es[f];
    TotalBeforeRemaining(es[..f], send);
  }

  /** The entry takes nothing, and if it is a `remaining` one it gets nothing. */
  predicate QuietAt(es: Entries, send: real, j: nat) {
    j < |es| && Explicit(es[j], send) == 0.0 && (es[j].remaining ==> Left(es[..j + 1], send) == 0.0)
  }

  /** Nothing contributes after index f, and every later remainder is zero. */
  predicate QuietAfter(es: Entries, send: real, f: nat) {
    forall j :: f < j < |es| ==> QuietAt(es, send, j)
  }

  lemma QuietInit(es: Entries, send: real, j: nat)
    requires j + 1 < |es|
    ensures QuietAt(Init(es), send, j) == QuietAt(es, send, j)
  {
    assert Init(es)[..j + 1] == es[..j + 1];
  }

  lemma QuietStep(es: Entries, send: real, f: nat)
    requires f + 1 < |es|
    ensures QuietAfter(es, send, f) <==>
            && QuietAfter(Init(es), send, f)
            && Explicit(Last(es), send) == 0.0 && (Last(es).remaining ==> Left(es, send) == 0.0)
  {
    var n := |es| - 1;
    assert es[..n + 1] == es;
    assert QuietAt(es, send, n) <==> Explicit(Last(es), send) == 0.0 && (Last(es).remaining ==> Left(es, send) == 0.0);
    forall j | f < j < n ensures QuietAt(Init(es), send, j) == QuietAt(es, send, j) {
      QuietInit(es, send, j);
    }
  }

  /** If explicit contributions are non-negative and sum to at most the send value, a side with a
      `remaining` entry is accepted exactly when it is quiet after the first one. */
  lemma {:induction false} AcceptedIffQuiet(es: Entries, send: real, f: nat)
    requires FirstRemaining(es, f) && Monotone(es, send) && Left(es, send) >= 0.0
    ensures Total(es, send) >= send
    ensures Total(es, send) == send <==> QuietAfter(es, send, f)
    decreases |es|
  {
    if |es| == f + 1 {
      assert es[..f + 1] == es;
      TotalAtRemaining(es, send, f);
    } else {
      LeftDecreases(es, send, |es| - 1);
      AcceptedIffQuiet(Init(es), send, f);
      QuietStep(es, send, f);
    }
  }

  predicate SingleRemaining(es: Entries, f: nat) {
    f < |es| && forall i :: 0 <= i < |es| ==> (es[i].remaining <==> i == f)
  }

  /** With one `remaining` entry the total exceeds the send value by exactly what the shared
      remainder loses after that entry. */
  lemma {:induction false} SingleRemainingTotal(es: Entries, send: real, f: nat)
    requires SingleRemaining(es, f)
    ensures Total(es, send) == send + Left(es[..f + 1], send) - Left(es, send)
    decreases |es|
  {
    if |es| == f + 1 {
      assert es[..f + 1] == es;
      TotalAtRemaining(es, send, f);
    } else {
      SingleRemainingTotal(Init(es), send, f);
      assert Init(es)[..f + 1] == es[..f + 1];
      assert !Last(es).remaining;
    }
  }

  /** After its `remaining` entry nothing but the value of the shared record can change. */
  lemma {:induction false} RecordOperation(es: Entries, c: Context, f: nat)
    requires SingleRemaining(es, f)
    ensures (Record(es, c).operation, Record(es, c).direction) == DetermineOperation(c.pending, es[f].isFrom, c.status)
    decreases |es|
  {
    if |es| > f + 1 {
      RecordOperation(Init(es), c, f);
      assert !Last(es).remaining;
    }
  }

  /** The record the entry keeps by pointer and its copy in the map end up equal exactly when the
      side is accepted: later iterations of the loop then leave the shared record as it was. */
  lemma SharedRemainderAgrees(es: Entries, c: Context, f: nat)
    requires SingleRemaining(es, f) && DistinctAliases(es)
    ensures es[f].accountAlias in Resolved(es, c)
    ensures Resolved(es, c)[es[f].accountAlias] == Record(es, c) <==> Total(es, c.value) == c.value
  {
    SingleRemainingTotal(es, c.value, f);
    ResolvedAt(es, c, f);
    RecordIs(es, c);
    RecordOperation(es, c, f);
  }

  /** The map's entry for position i. */
  lemma {:induction false} ResolvedAt(es: Entries, c: Context, i: nat)
    requires i < |es| && DistinctAliases(es)
    ensures var v := LastValue(es[..i + 1], c.value);
            if v.Some? then
              && es[i].accountAlias in Resolved(es, c)
              && Resolved(es, c)[es[i].accountAlias] == LastAmount(es[..i + 1], c)
            else es[i].accountAlias !in Resolved(es, c)
    decreases |es|
  {
    if i == |es| - 1 {
      assert es[..i + 1] == es;
      ResolvedKeys(Init(es), c, es[i].accountAlias);
    } else {
      ResolvedAt(Init(es), c, i);
      assert Init(es)[..i + 1] == es[..i + 1];
    }
  }
}
