/** ValidateSendSourceAndDistribute of pkg/mtransaction/validations.go: both sides are resolved,
    then the transaction is rejected if it is ambiguous or does not balance. */
module SendValidation {
  import opened TransactionTypes
  import opened Aliases
  import opened BalanceEngine
  import opened Sums
  import opened Resolver

  datatype Error = TransactionAmbiguous | TransactionValueMismatch | AccountIneligibility
                 | TransactionNotPending | NonPositiveValue | InvalidInput

  datatype Result<+T> = Ok(value: T) | Err(error: Error)

  datatype Responses = Responses(
    total: real,
    asset: string,
    from: map<string, Amount>,
    to: map<string, Amount>,
    sources: seq<string>,
    destinations: seq<string>,
    aliases: seq<string>,
    pending: bool,
    routesFrom: map<string, string>,
    routesTo: map<string, string>)

  /** The slice with the missing ones appended, in order. */
  function Appended(slice: seq<string>, s: seq<string>): seq<string>
    decreases s
  {
    if s == [] then slice
    else
      Appended(if s[0] in slice then slice else slice + [s[0]], s[1..])
  }

  predicate Distinct(s: seq<string>) {
    forall i, j :: 0 <= i < j < |s| ==> s[i] != s[j]
  }

  /** The union of both, without new duplicates. */
  lemma {:induction false} AppendedIsUnion(slice: seq<string>, s: seq<string>)
    ensures forall x :: x in Appended(slice, s) <==> x in slice || x in s
    ensures Distinct(slice) ==> Distinct(Appended(slice, s))
    decreases s
  {
    if s != [] {
      assert s == [s[0]] + s[1..];
      AppendedIsUnion(if s[0] in slice then slice else slice + [s[0]], s[1..]);
    }
  }

  lemma {:induction false} AppendedOne(slice: seq<string>, s: seq<string>, v: string)
    ensures Appended(slice, s + [v]) == if v in Appended(slice, s) then Appended(slice, s) else Appended(slice, s) + [v]
    decreases s
  {
    if s == [] {
      assert [v][1..] == [] && s + [v] == [v];
    } else {
      assert (s + [v])[0] == s[0] && (s + [v])[1..] == s[1..] + [v];
      AppendedOne(if s[0] in slice then slice else slice + [s[0]], s[1..], v);
    }
  }

  method AppendIfNotExist(slice: seq<string>, s: seq<string>) returns (r: seq<string>)
    ensures r == Appended(slice, s)
  {
    r := slice;
    for i := 0 to |s|
      invariant r == Appended(slice, s[..i])
    {
      AppendedOne(slice, s[..i], s[i]);
      assert s[..i + 1] == s[..i] + [s[i]];
      if s[i] !in r {
        r := r + [s[i]];
      }
    }
    assert s[..|s|] == s;
  }

  /** ConcatAlias(i, key) of the package: the index put before an `alias#key` pair. */
  function ConcatIndex(i: nat, key: string): string {
    Itoa(i) + "#" + key
  }

  predicate Clashes(keys: seq<string>, amounts: map<string, Amount>) {
    exists i :: 0 <= i < |keys| && ConcatIndex(i, keys[i]) in amounts
  }

  function ContextOf(tx: Transaction, status: Status): Context {
    Context(tx.asset, tx.value, tx.pending, status)
  }

  /** The two checks on what both sides gathered. */
  function Judge(asset: string, value: real, pending: bool, from: Gathered, to: Gathered): Result<Responses> {
    if Clashes(from.keys, to.amounts) || Clashes(to.keys, from.amounts) then Err(TransactionAmbiguous)
    else if from.total != to.total || to.total != value then Err(TransactionValueMismatch)
    else
      Ok(Responses(value, asset, from.amounts, to.amounts, from.keys, to.keys,
                   Appended(Appended([], from.keys), to.keys), pending, from.routes, to.routes))
  }

  function Validate(tx: Transaction, status: Status): Result<Responses> {
    var c := ContextOf(tx, status);
    Judge(tx.asset, tx.value, tx.pending, GatheredFrom(tx.from, c), GatheredFrom(tx.to, c))
  }

  /** One ambiguity loop. */
  method FindClash(keys: seq<string>, amounts: map<string, Amount>) returns (clash: bool)
    ensures clash == Clashes(keys, amounts)
  {
    for i := 0 to |keys|
      invariant forall j :: 0 <= j < i ==> ConcatIndex(j, keys[j]) !in amounts
    {
      if ConcatIndex(i, keys[i]) in amounts {
        return true;
      }
    }
    return false;
  }

  /** Both sides, one after the other; each keeps the record of its own remainder. */
  method ResolveSides(from: array<FromTo<AmountCell>>, to: array<FromTo<AmountCell>>, c: Context,
                      ghost fs: Entries, ghost ts: Entries)
    returns (sources: Gathered, destinations: Gathered)
    requires from != to && fs == Snapshot(from[..]) && ts == Snapshot(to[..])
    modifies from, to
    ensures sources == GatheredFrom(fs, c) && destinations == GatheredFrom(ts, c)
    ensures Snapshot(from[..]) == Rewritten(fs, c) && Snapshot(to[..]) == Rewritten(ts, c)
  {
    var total, amounts, keys, routes, record := CalculateTotal(from, c, fs);
    sources := Gathered(total, amounts, keys, routes, record.content);
    total, amounts, keys, routes, record := CalculateTotal(to, c, ts);
    destinations := Gathered(total, amounts, keys, routes, record.content);
  }

  method Check(asset: string, value: real, pending: bool, from: Gathered, to: Gathered)
    returns (r: Result<Responses>)
    ensures r == Judge(asset, value, pending, from, to)
  {
    var aliases := AppendIfNotExist([], from.keys);
    aliases := AppendIfNotExist(aliases, to.keys);

    var clash := FindClash(from.keys, to.amounts);
    if clash {
      return Err(TransactionAmbiguous);
    }
    clash := FindClash(to.keys, from.amounts);
    if clash {
      return Err(TransactionAmbiguous);
    }
    if from.total != to.total || to.total != value {
      return Err(TransactionValueMismatch);
    }
    return Ok(Responses(value, asset, from.amounts, to.amounts, from.keys, to.keys, aliases, pending,
                        from.routes, to.routes));
  }

  /** The source and destination entries arrive by reference and are relinked by the resolver,
      whether or not they are then accepted. `tx` is the transaction by value before the call. */
  method ValidateSendSourceAndDistribute(
    asset: string, value: real, pending: bool,
    from: array<FromTo<AmountCell>>, to: array<FromTo<AmountCell>>, status: Status, ghost tx: Transaction)
    returns (r: Result<Responses>)
    requires from != to
    requires tx == Transaction(asset, value, pending, Snapshot(from[..]), Snapshot(to[..]))
    modifies from, to
    ensures r == Validate(tx, status)
    ensures Snapshot(from[..]) == Rewritten(tx.from, ContextOf(tx, status))
    ensures Snapshot(to[..]) == Rewritten(tx.to, ContextOf(tx, status))
  {
    var from', to' := ResolveSides(from, to, Context(asset, value, pending, status), tx.from, tx.to);
    r := Check(asset, value, pending, from', to');
  }

  // ---------- raw input ----------

  /** '#'-free aliases, and the side of each entry marked on it. */
  predicate ShapedSide(es: Entries, isFrom: bool) {
    forall i :: 0 <= i < |es| ==> '#' !in es[i].accountAlias && es[i].isFrom == isFrom
  }

  predicate Shaped(tx: Transaction) {
    ShapedSide(tx.from, true) && ShapedSide(tx.to, false)
  }

  /** At most one of share, amount and remaining on each entry. */
  predicate OneKindSide(es: Entries) {
    forall i :: 0 <= i < |es| ==> OneKind(es[i])
  }

  /** What input validation lets through. */
  predicate WellFormed(tx: Transaction) {
    Shaped(tx) && OneKindSide(tx.from) && OneKindSide(tx.to)
  }

  /** The transaction as the resolver receives it, with composite keys for aliases. */
  function Prepare(tx: Transaction): Transaction {
    tx.(from := ConcatAll(tx.from), to := ConcatAll(tx.to))
  }

  /** Which entries of a raw side act on the row `alias#key`. */
  function RowPicks(es: Entries, row: string): (r: seq<bool>)
    ensures |r| == |es|
  {
    seq(|es|, i requires 0 <= i < |es| => AliasKey(es[i].accountAlias, es[i].balanceKey) == row)
  }

  /** Reference sum: what the entries of a raw side resolve to on a row. */
  function RowTotal(es: Entries, send: real, row: string): real {
    SumWhere(es, send, RowPicks(es, row))
  }

  lemma ConcatRaw(es: Entries, i: nat)
    requires i < |es| && '#' !in es[i].accountAlias
    ensures ConcatAll(es)[i].accountAlias == ConcatKey(i, es[i].accountAlias, es[i].balanceKey)
    ensures SplitAliasWithKey(ConcatAll(es)[i].accountAlias) == AliasKey(es[i].accountAlias, es[i].balanceKey)
    ensures LookupKey(ConcatAll(es)[i]) == AliasKey(es[i].accountAlias, es[i].balanceKey)
  {
    ConcatedIff(es[i].accountAlias);
    ConcatKeyParts(i, es[i].accountAlias, es[i].balanceKey);
  }

  lemma ConcatAllDistinct(es: Entries)
    requires forall i :: 0 <= i < |es| ==> '#' !in es[i].accountAlias
    ensures DistinctAliases(ConcatAll(es))
  {
    forall i, j | 0 <= i < j < |es| ensures ConcatAll(es)[i].accountAlias != ConcatAll(es)[j].accountAlias {
      ConcatDistinct(es, i, j);
    }
  }

  lemma ConcatTwins(es: Entries)
    ensures Twins(ConcatAll(es), es)
  {
  }

  lemma ConcatPicks(es: Entries, row: string)
    requires forall i :: 0 <= i < |es| ==> '#' !in es[i].accountAlias
    ensures Picks(ConcatAll(es), OnRow(row)) == RowPicks(es, row)
  {
    forall i | 0 <= i < |es| ensures Picks(ConcatAll(es), OnRow(row))[i] == RowPicks(es, row)[i] {
      ConcatRaw(es, i);
    }
  }

  /** Composite keys change where amounts are filed, not what they are. */
  lemma ConcatWhole(es: Entries, send: real, row: string)
    requires forall i :: 0 <= i < |es| ==> '#' !in es[i].accountAlias
    ensures Total(ConcatAll(es), send) == Total(es, send)
    ensures ResolvedSum(ConcatAll(es), send, OnRow(row)) == RowTotal(es, send, row)
  {
    ConcatTwins(es);
    ConcatPicks(es, row);
    TwinTotals(ConcatAll(es), es, send);
    TwinSums(ConcatAll(es), es, send, RowPicks(es, row));
  }

  // ---------- what acceptance means ----------

  lemma OneKindConcat(es: Entries)
    requires forall i :: 0 <= i < |es| ==> OneKind(es[i])
    ensures forall i :: 0 <= i < |es| ==> OneKind(ConcatAll(es)[i])
  {
  }

  /** Accepted input: the From map and the To map each sum to the send value, and on every row
      they sum to the reference totals; the resolved values do not depend on the status. */
  lemma AcceptedBalances(tx: Transaction, status: Status, row: string)
    requires WellFormed(tx) && Validate(Prepare(tx), status).Ok?
    ensures var r := Validate(Prepare(tx), status).value;
            && Sum(ValuesWhere(r.from, Anywhere())) == tx.value
            && Sum(ValuesWhere(r.to, Anywhere())) == tx.value
            && Sum(ValuesWhere(r.from, OnRow(row))) == RowTotal(tx.from, tx.value, row)
            && Sum(ValuesWhere(r.to, OnRow(row))) == RowTotal(tx.to, tx.value, row)
  {
    var c := ContextOf(tx, status);
    SideBalances(tx.from, true, c);
    SideBalances(tx.to, false, c);
    SideRows(tx.from, true, c, row);
    SideRows(tx.to, false, c, row);
  }

  lemma SideBalances(es: Entries, isFrom: bool, c: Context)
    requires ShapedSide(es, isFrom) && OneKindSide(es)
    ensures Sum(ValuesWhere(Resolved(ConcatAll(es), c), Anywhere())) == Total(ConcatAll(es), c.value)
  {
    ConcatAllDistinct(es);
    OneKindConcat(es);
    MapSumIsListSum(ConcatAll(es), c, Anywhere());
    TotalIsResolvedSum(ConcatAll(es), c.value);
  }

  /** On one row the map sums to the reference total, also for entries of several kinds. */
  lemma SideRows(es: Entries, isFrom: bool, c: Context, row: string)
    requires ShapedSide(es, isFrom)
    ensures Sum(ValuesWhere(Resolved(ConcatAll(es), c), OnRow(row))) == RowTotal(es, c.value, row)
  {
    ConcatAllDistinct(es);
    MapSumIsListSum(ConcatAll(es), c, OnRow(row));
    ConcatWhole(es, c.value, row);
  }

  lemma {:induction false} LookupKeysAt(es: Entries, i: nat)
    requires i < |es|
    ensures |LookupKeys(es)| == |es| && LookupKeys(es)[i] == LookupKey(es[i])
  {
    if i < |es| - 1 {
      LookupKeysAt(Init(es), i);
    } else if |es| > 1 {
      LookupKeysAt(Init(es), 0);
    }
  }

  /** A composite key is in the resolved map exactly when the entry at its index is that entry
      and contributes. */
  lemma KeyResolvedIff(es: Entries, c: Context, i: nat, alias: string, key: string)
    requires '#' !in alias && forall j :: 0 <= j < |es| ==> '#' !in es[j].accountAlias
    ensures ConcatKey(i, alias, key) in Resolved(ConcatAll(es), c) <==>
            && i < |es| && Contributes(es[i])
            && es[i].accountAlias == alias && DefaultKey(es[i].balanceKey) == DefaultKey(key)
  {
    var cs, k := ConcatAll(es), ConcatKey(i, alias, key);
    ResolvedKeyIff(cs, c, k);
    forall j | 0 <= j < |es|
      ensures Contributes(cs[j]) == Contributes(es[j])
      ensures cs[j].accountAlias == k <==>
              j == i && es[j].accountAlias == alias && DefaultKey(es[j].balanceKey) == DefaultKey(key)
    {
      ConcatRaw(es, j);
      ConcatKeyInjective(j, es[j].accountAlias, es[j].balanceKey, i, alias, key);
    }
  }

  predicate SameAccount(a: FromTo<Amount>, b: FromTo<Amount>) {
    a.accountAlias == b.accountAlias && DefaultKey(a.balanceKey) == DefaultKey(b.balanceKey)
  }

  lemma ConcatIndexKey(i: nat, alias: string, key: string)
    ensures ConcatIndex(i, AliasKey(alias, key)) == ConcatKey(i, alias, key)
  {
  }

  predicate ClashAt(es: Entries, others: Entries, i: nat) {
    i < |es| && i < |others| && SameAccount(es[i], others[i]) && Contributes(others[i])
  }

  lemma ClashAtIff(es: Entries, others: Entries, c: Context, i: nat)
    requires i < |es| && '#' !in es[i].accountAlias
    requires forall j :: 0 <= j < |others| ==> '#' !in others[j].accountAlias
    ensures |LookupKeys(ConcatAll(es))| == |es|
    ensures ConcatIndex(i, LookupKeys(ConcatAll(es))[i]) in Resolved(ConcatAll(others), c) <==>
            ClashAt(es, others, i)
  {
    LookupKeysAt(ConcatAll(es), i);
    ConcatRaw(es, i);
    ConcatIndexKey(i, es[i].accountAlias, es[i].balanceKey);
    KeyResolvedIff(others, c, i, es[i].accountAlias, es[i].balanceKey);
  }

  lemma ClashIff(es: Entries, others: Entries, c: Context)
    requires forall j :: 0 <= j < |es| ==> '#' !in es[j].accountAlias
    requires forall j :: 0 <= j < |others| ==> '#' !in others[j].accountAlias
    ensures Clashes(LookupKeys(ConcatAll(es)), Resolved(ConcatAll(others), c)) <==>
            exists i :: ClashAt(es, others, i)
  {
    var keys, m := LookupKeys(ConcatAll(es)), Resolved(ConcatAll(others), c);
    if es != [] {
      ClashAtIff(es, others, c, 0);
    }
    if Clashes(keys, m) {
      var i :| 0 <= i < |keys| && ConcatIndex(i, keys[i]) in m;
      ClashAtIff(es, others, c, i);
    }
    if exists i :: ClashAt(es, others, i) {
      var i :| ClashAt(es, others, i);
      ClashAtIff(es, others, c, i);
    }
  }

  /** At index i the source and the destination name the same balance and one contributes. */
  predicate AmbiguousAt(tx: Transaction, i: nat) {
    && i < |tx.from| && i < |tx.to| && SameAccount(tx.from[i], tx.to[i])
    && (Contributes(tx.from[i]) || Contributes(tx.to[i]))
  }

  lemma AmbiguousEitherWay(tx: Transaction)
    ensures (exists i :: AmbiguousAt(tx, i)) <==>
            (exists i :: ClashAt(tx.from, tx.to, i)) || (exists i :: ClashAt(tx.to, tx.from, i))
  {
    if i :| ClashAt(tx.from, tx.to, i) {
      assert AmbiguousAt(tx, i);
    }
    if i :| ClashAt(tx.to, tx.from, i) {
      assert AmbiguousAt(tx, i);
    }
    if i :| AmbiguousAt(tx, i) {
      assert ClashAt(tx.from, tx.to, i) || ClashAt(tx.to, tx.from, i);
    }
  }

  /** Ambiguity is reported before anything else. */
  lemma AmbiguousFirst(tx: Transaction, status: Status)
    ensures var c := ContextOf(tx, status);
            Validate(tx, status) == Err(TransactionAmbiguous) <==>
            Clashes(LookupKeys(tx.from), Resolved(tx.to, c)) || Clashes(LookupKeys(tx.to), Resolved(tx.from, c))
  {
  }

  /** The ambiguity loops reject exactly when at some index the source and the destination name
      the same balance and one of the two has a resolved amount. */
  lemma AmbiguousIff(tx: Transaction, status: Status)
    requires Shaped(tx)
    ensures Validate(Prepare(tx), status) == Err(TransactionAmbiguous) <==> exists i :: AmbiguousAt(tx, i)
  {
    var c := ContextOf(tx, status);
    AmbiguousFirst(Prepare(tx), status);
    ClashIff(tx.from, tx.to, c);
    ClashIff(tx.to, tx.from, c);
    AmbiguousEitherWay(tx);
  }

  /** Acceptance depends on the raw entries alone: not ambiguous, and both totals are the send
      value. The status a transaction is validated under plays no part. */
  lemma AcceptedIff(tx: Transaction, status: Status)
    requires Shaped(tx)
    ensures Validate(Prepare(tx), status).Ok? <==>
            && Total(tx.from, tx.value) == tx.value == Total(tx.to, tx.value)
            && !exists i :: AmbiguousAt(tx, i)
  {
    AmbiguousIff(tx, status);
    ConcatWhole(tx.from, tx.value, "");
    ConcatWhole(tx.to, tx.value, "");
  }

  /** Which error is reported: ambiguity first, and the mismatch exactly when that is all. */
  lemma RejectedIff(tx: Transaction, status: Status)
    requires Shaped(tx)
    ensures Validate(Prepare(tx), status) == Err(TransactionValueMismatch) <==>
            && !(exists i :: AmbiguousAt(tx, i))
            && !(Total(tx.from, tx.value) == tx.value == Total(tx.to, tx.value))
    ensures var v := Validate(Prepare(tx), status);
            v.Err? ==> v.error == TransactionAmbiguous || v.error == TransactionValueMismatch
  {
    AmbiguousIff(tx, status);
    AcceptedIff(tx, status);
  }

  /** Raw aliases are no composite keys, so nothing clashes with them. */
  lemma RawNeverClashes(keys: seq<string>, es: Entries, c: Context)
    requires forall i :: 0 <= i < |es| ==> '#' !in es[i].accountAlias
    ensures !Clashes(keys, Resolved(es, c))
  {
    forall i | 0 <= i < |keys| ensures ConcatIndex(i, keys[i]) !in Resolved(es, c) {
      var k := ConcatIndex(i, keys[i]);
      assert k[|Itoa(i)|] == '#';
      ResolvedKeys(es, c, k);
    }
  }

  /** Validating raw entries decides the balance alone: no ambiguity is ever found. */
  lemma RawAcceptedIff(tx: Transaction, status: Status)
    requires Shaped(tx)
    ensures Validate(tx, status).Ok? <==> Total(tx.from, tx.value) == tx.value == Total(tx.to, tx.value)
    ensures Validate(tx, status).Err? ==> Validate(tx, status).error == TransactionValueMismatch
  {
    var c := ContextOf(tx, status);
    RawNeverClashes(LookupKeys(tx.from), tx.to, c);
    RawNeverClashes(LookupKeys(tx.to), tx.from, c);
  }

  /** Every resolved amount carries the operation determined for its side. */
  lemma {:induction false} ResolvedUniform(es: Entries, c: Context, isFrom: bool, k: string)
    requires forall i :: 0 <= i < |es| ==> es[i].isFrom == isFrom
    ensures k in Resolved(es, c) ==>
              var a := Resolved(es, c)[k];
              (a.operation, a.direction) == DetermineOperation(c.pending, isFrom, c.status) &&
              a.transactionType == c.status && !a.routeValidation
  {
    if es != [] {
      ResolvedUniform(Init(es), c, isFrom, k);
    }
  }
}
