/** What an accepted validation hands to the handlers, read off the raw entries. */
module AcceptedResponses {
  import opened TransactionTypes
  import opened Aliases
  import opened BalanceEngine
  import opened Resolver
  import opened SendValidation

  // ---------- keys ----------

  /** The `alias#key` of every entry, in order. */
  predicate NamesOf(keys: seq<string>, es: Entries) {
    && |keys| == |es|
    && forall i :: 0 <= i < |es| ==> keys[i] == AliasKey(es[i].accountAlias, es[i].balanceKey)
  }

  lemma LookupNames(es: Entries, isFrom: bool)
    requires ShapedSide(es, isFrom)
    ensures NamesOf(LookupKeys(ConcatAll(es)), es)
  {
    if es != [] {
      LookupKeysAt(ConcatAll(es), 0);
    }
    forall i | 0 <= i < |es|
      ensures LookupKeys(ConcatAll(es))[i] == AliasKey(es[i].accountAlias, es[i].balanceKey)
    {
      LookupKeysAt(ConcatAll(es), i);
      ConcatRaw(es, i);
    }
  }

  // ---------- routes ----------

  lemma {:induction false} RoutesIff(es: Entries, k: string)
    ensures k in Routes(es) <==> exists i :: 0 <= i < |es| && es[i].accountAlias == k && es[i].routeId.Some?
  {
    if es != [] {
      RoutesIff(Init(es), k);
      assert forall i :: 0 <= i < |es| - 1 ==> Init(es)[i] == es[i];
    }
  }

  lemma {:induction false} RoutesAt(es: Entries, i: nat)
    requires DistinctAliases(es) && i < |es| && es[i].routeId.Some?
    ensures es[i].accountAlias in Routes(es) && Routes(es)[es[i].accountAlias] == es[i].routeId.value
  {
    if i < |es| - 1 {
      assert Init(es)[i] == es[i];
      RoutesAt(Init(es), i);
    }
  }

  function KeyAt(es: Entries, i: nat): string
    requires i < |es|
  {
    ConcatKey(i, es[i].accountAlias, es[i].balanceKey)
  }

  /** The composite keys of the entries that have a route, with that route, and nothing else. */
  predicate RoutesOf(routes: map<string, string>, es: Entries) {
    && (forall i :: 0 <= i < |es| && es[i].routeId.Some? ==>
          KeyAt(es, i) in routes && routes[KeyAt(es, i)] == es[i].routeId.value)
    && (forall k :: k in routes ==> exists i :: 0 <= i < |es| && es[i].routeId.Some? && KeyAt(es, i) == k)
  }

  lemma RoutesByKey(es: Entries, isFrom: bool)
    requires ShapedSide(es, isFrom)
    ensures RoutesOf(Routes(ConcatAll(es)), es)
  {
    var cs := ConcatAll(es);
    ConcatAllDistinct(es);
    forall i | 0 <= i < |es|
      ensures cs[i].accountAlias == KeyAt(es, i) && cs[i].routeId == es[i].routeId
    {
      ConcatRaw(es, i);
    }
    forall i | 0 <= i < |es| && es[i].routeId.Some?
      ensures KeyAt(es, i) in Routes(cs) && Routes(cs)[KeyAt(es, i)] == es[i].routeId.value
    {
      RoutesAt(cs, i);
    }
    forall k | k in Routes(cs) ensures exists i :: 0 <= i < |es| && es[i].routeId.Some? && KeyAt(es, i) == k {
      RoutesIff(cs, k);
      var i :| 0 <= i < |cs| && cs[i].accountAlias == k && cs[i].routeId.Some?;
      assert KeyAt(es, i) == k;
    }
  }

  // ---------- amounts ----------

  /** What entry i of a one-kind side resolves to: an amount is taken as it is; a share and a
      remainder are in the asset of the transaction. */
  predicate ResolvesTo(a: Amount, es: Entries, i: nat, tx: Transaction, status: Status)
    requires i < |es|
  {
    && (HasAmount(es[i]) ==> a.asset == es[i].amount.value.asset && a.value == es[i].amount.value.value)
    && (HasShare(es[i]) ==> a.asset == tx.asset && a.value == ShareValue(tx.value, es[i].share.value))
    && (es[i].remaining ==> a.asset == tx.asset && a.value == Left(es[..i + 1], tx.value))
    && (a.operation, a.direction) == DetermineOperation(tx.pending, es[i].isFrom, status)
    && a.transactionType == status && !a.routeValidation
  }

  /** Exactly the contributing entries, each under its composite key. */
  predicate AmountsOf(m: map<string, Amount>, es: Entries, tx: Transaction, status: Status) {
    && (forall i :: 0 <= i < |es| && Contributes(es[i]) ==>
          KeyAt(es, i) in m && ResolvesTo(m[KeyAt(es, i)], es, i, tx, status))
    && (forall k :: k in m ==> exists i :: 0 <= i < |es| && Contributes(es[i]) && KeyAt(es, i) == k)
  }

  lemma ConcatPrefix(es: Entries, n: nat)
    requires n <= |es|
    ensures ConcatAll(es)[..n] == ConcatAll(es[..n])
  {
  }

  /** The remainder at an entry does not depend on how the entries are keyed. */
  lemma LeftByKey(es: Entries, send: real, n: nat)
    requires n <= |es|
    ensures Left(ConcatAll(es)[..n], send) == Left(es[..n], send)
  {
    ConcatPrefix(es, n);
    ConcatTwins(es[..n]);
    TwinTotals(ConcatAll(es)[..n], es[..n], send);
  }

  lemma AmountAt(es: Entries, isFrom: bool, tx: Transaction, status: Status, i: nat)
    requires ShapedSide(es, isFrom) && OneKindSide(es) && i < |es| && Contributes(es[i])
    ensures var m := Resolved(ConcatAll(es), ContextOf(tx, status));
            KeyAt(es, i) in m && ResolvesTo(m[KeyAt(es, i)], es, i, tx, status)
  {
    var cs, c := ConcatAll(es), ContextOf(tx, status);
    ConcatAllDistinct(es);
    ConcatRaw(es, i);
    ResolvedAt(cs, c, i);
    assert OneKind(es[i]);
    assert Last(cs[..i + 1]) == cs[i];
    assert cs[i] == es[i].(accountAlias := KeyAt(es, i));
    LeftByKey(es, c.value, i + 1);
  }

  lemma AmountsByKey(es: Entries, isFrom: bool, tx: Transaction, status: Status)
    requires ShapedSide(es, isFrom) && OneKindSide(es)
    ensures AmountsOf(Resolved(ConcatAll(es), ContextOf(tx, status)), es, tx, status)
  {
    var cs, c := ConcatAll(es), ContextOf(tx, status);
    var m := Resolved(cs, c);
    forall i | 0 <= i < |es| && Contributes(es[i])
      ensures KeyAt(es, i) in m && ResolvesTo(m[KeyAt(es, i)], es, i, tx, status)
    {
      AmountAt(es, isFrom, tx, status, i);
    }
    forall k | k in m ensures exists i :: 0 <= i < |es| && Contributes(es[i]) && KeyAt(es, i) == k {
      ResolvedKeyIff(cs, c, k);
      var i :| 0 <= i < |cs| && cs[i].accountAlias == k && Contributes(cs[i]);
      ConcatRaw(es, i);
      assert Contributes(es[i]) && KeyAt(es, i) == k;
    }
  }

  // ---------- the whole response ----------

  /** Sources and destinations are named in order, every routed entry keeps its route, aliases lists
      both without duplicates, and each side's amounts are those of its entries. */
  lemma AcceptedResponse(tx: Transaction, status: Status)
    requires WellFormed(tx) && Validate(Prepare(tx), status).Ok?
    ensures var r := Validate(Prepare(tx), status).value;
            && r.total == tx.value && r.asset == tx.asset && r.pending == tx.pending
            && NamesOf(r.sources, tx.from) && NamesOf(r.destinations, tx.to)
            && RoutesOf(r.routesFrom, tx.from) && RoutesOf(r.routesTo, tx.to)
            && AmountsOf(r.from, tx.from, tx, status) && AmountsOf(r.to, tx.to, tx, status)
            && Distinct(r.aliases) && (forall x :: x in r.aliases <==> x in r.sources || x in r.destinations)
  {
    LookupNames(tx.from, true);
    LookupNames(tx.to, false);
    RoutesByKey(tx.from, true);
    RoutesByKey(tx.to, false);
    AmountsByKey(tx.from, true, tx, status);
    AmountsByKey(tx.to, false, tx, status);
    AliasesListBoth(tx, status);
  }

  lemma AliasesListBoth(tx: Transaction, status: Status)
    requires Validate(Prepare(tx), status).Ok?
    ensures var r := Validate(Prepare(tx), status).value;
            Distinct(r.aliases) && (forall x :: x in r.aliases <==> x in r.sources || x in r.destinations)
  {
    var r := Validate(Prepare(tx), status).value;
    AppendedIsUnion([], r.sources);
    AppendedIsUnion(Appended([], r.sources), r.destinations);
  }
}
