/** The route cache of pkg/mmodel/transaction-route.go: a two-level index over a transaction route's
    list of operation routes, built once and looked up by action and route identifier. */
module RouteCache {
  import opened TransactionTypes

  datatype Rubric = Rubric(code: string, description: string)

  datatype AccountingEntry = AccountingEntry(debit: Option<Rubric>, credit: Option<Rubric>)

  datatype Action =
    | Direct | Hold | Commit | Cancel | Revert | Overdraft | Block | Unblock
    | OtherAction(name: string)

  datatype AccountingEntries = AccountingEntries(
    direct: Option<AccountingEntry>,
    hold: Option<AccountingEntry>,
    commit: Option<AccountingEntry>,
    cancel: Option<AccountingEntry>,
    revert: Option<AccountingEntry>,
    overdraft: Option<AccountingEntry>,
    block: Option<AccountingEntry>,
    unblock: Option<AccountingEntry>)

  datatype OperationType = Source | Destination | Bidirectional | OtherType(name: string)

  datatype AccountRule = AccountRule(ruleType: string, validIf: string)

  datatype OperationRoute = OperationRoute(
    id: string,
    description: string,
    code: string,
    operationType: OperationType,
    accountingEntries: Option<AccountingEntries>,
    account: Option<AccountRule>)

  datatype AccountCache = AccountCache(ruleType: string, validIf: string)

  datatype OperationRouteCache = OperationRouteCache(
    account: Option<AccountCache>,
    operationType: OperationType,
    code: string,
    description: string,
    accountingEntries: Option<AccountingEntries>)

  type RouteMap = map<string, OperationRouteCache>

  datatype ActionRouteCache = ActionRouteCache(source: RouteMap, destination: RouteMap, bidirectional: RouteMap)

  type Cache = map<Action, ActionRouteCache>

  // ---------- actions of a route ----------

  /** The entry a route keeps for an action. */
  function EntryFor(entries: Option<AccountingEntries>, action: Action): Option<AccountingEntry> {
    if entries.None? then None
    else match action
      case Direct => entries.value.direct
      case Hold => entries.value.hold
      case Commit => entries.value.commit
      case Cancel => entries.value.cancel
      case Revert => entries.value.revert
      case Overdraft => entries.value.overdraft
      case Block => entries.value.block
      case Unblock => entries.value.unblock
      case OtherAction(_) => None
  }

  /** Every action has its own entry, and an unknown one has none. */
  lemma OwnEntries(e: AccountingEntries, name: string)
    ensures EntryFor(Some(e), Direct) == e.direct && EntryFor(Some(e), Hold) == e.hold
    ensures EntryFor(Some(e), Commit) == e.commit && EntryFor(Some(e), Cancel) == e.cancel
    ensures EntryFor(Some(e), Revert) == e.revert && EntryFor(Some(e), Overdraft) == e.overdraft
    ensures EntryFor(Some(e), Block) == e.block && EntryFor(Some(e), Unblock) == e.unblock
    ensures EntryFor(Some(e), OtherAction(name)) == None && EntryFor(None, Direct) == None
  {
  }

  /** The order in which the actions are listed. */
  function Rank(a: Action): nat {
    match a
    case Direct => 0 case Hold => 1 case Commit => 2 case Cancel => 3
    case Revert => 4 case Overdraft => 5 case Block => 6 case Unblock => 7
    case OtherAction(_) => 8
  }

  /** Exactly the actions before the n-th that have an entry, each once and in order. */
  ghost predicate ListsUpTo(actions: seq<Action>, entries: Option<AccountingEntries>, n: nat) {
    && (forall a :: a in actions <==> Rank(a) < n && EntryFor(entries, a).Some?)
    && (forall i, j :: 0 <= i < j < |actions| ==> Rank(actions[i]) < Rank(actions[j]))
  }

  method AppendPresent(actions: seq<Action>, entry: Option<AccountingEntry>, action: Action,
                       ghost entries: Option<AccountingEntries>)
    returns (more: seq<Action>)
    requires ListsUpTo(actions, entries, Rank(action)) && entry == EntryFor(entries, action) && !action.OtherAction?
    ensures ListsUpTo(more, entries, Rank(action) + 1)
  {
    assert forall a :: Rank(a) == Rank(action) ==> a == action;
    assert forall i :: 0 <= i < |actions| ==> actions[i] in actions;
    more := actions;
    if entry.Some? {
      more := actions + [action];
    }
  }

  method Actions(entries: Option<AccountingEntries>) returns (actions: seq<Action>)
    ensures ListsUpTo(actions, entries, 8)
  {
    actions := [];
    if entries.None? {
      return;
    }
    var ae := entries.value;
    actions := AppendPresent(actions, ae.direct, Direct, entries);
    actions := AppendPresent(actions, ae.hold, Hold, entries);
    actions := AppendPresent(actions, ae.commit, Commit, entries);
    actions := AppendPresent(actions, ae.cancel, Cancel, entries);
    actions := AppendPresent(actions, ae.revert, Revert, entries);
    actions := AppendPresent(actions, ae.overdraft, Overdraft, entries);
    actions := AppendPresent(actions, ae.block, Block, entries);
    actions := AppendPresent(actions, ae.unblock, Unblock, entries);
  }

  // ---------- the linear scan the cache stands for ----------

  function CachedAccount(rule: Option<AccountRule>): Option<AccountCache> {
    if rule.None? then None else Some(AccountCache(rule.value.ruleType, rule.value.validIf))
  }

  function RouteData(r: OperationRoute): OperationRouteCache {
    OperationRouteCache(CachedAccount(r.account), r.operationType, r.code, r.description, r.accountingEntries)
  }

  /** The route a cached entry stands for. */
  function RouteOf(id: string, data: OperationRouteCache): OperationRoute {
    var account := if data.account.None? then None
                   else Some(AccountRule(data.account.value.ruleType, data.account.value.validIf));
    OperationRoute(id, data.description, data.code, data.operationType, data.accountingEntries, account)
  }

  /** Nothing of a route is lost or mixed up in the cache. */
  lemma DataRoundTrip(r: OperationRoute)
    ensures RouteOf(r.id, RouteData(r)) == r
  {
  }

  /** Route r answers a lookup of this action and identifier. */
  predicate Serves(r: OperationRoute, action: Action, id: string) {
    r.id == id && !r.operationType.OtherType? && EntryFor(r.accountingEntries, action).Some?
  }

  /** The last route of the given type that answers the lookup. */
  function LastOf(routes: seq<OperationRoute>, kind: OperationType, action: Action, id: string)
    : Option<OperationRouteCache>
  {
    if |routes| == 0 then None
    else
      var r := routes[|routes| - 1];
      if Serves(r, action, id) && r.operationType == kind then Some(RouteData(r))
      else LastOf(routes[..|routes| - 1], kind, action, id)
  }

  // ---------- building the cache ----------

  function RoutesOf(c: ActionRouteCache, kind: OperationType): RouteMap {
    match kind
    case Source => c.source
    case Destination => c.destination
    case Bidirectional => c.bidirectional
    case OtherType(_) => map[]
  }

  function EntryIn(cache: Cache, kind: OperationType, action: Action, id: string): Option<OperationRouteCache> {
    if action in cache && id in RoutesOf(cache[action], kind) then Some(RoutesOf(cache[action], kind)[id]) else None
  }

  /** The cache holds, per type, action and identifier, what the scan of the list finds last. */
  ghost predicate Indexes(cache: Cache, routes: seq<OperationRoute>) {
    && (forall kind, action, id ::
          EntryIn(cache, kind, action, id) == LastOf(routes, kind, action, id))
    && (forall action :: action in cache <==> exists r, id :: r in routes && Serves(r, action, id))
  }

  function AddRoute(c: ActionRouteCache, kind: OperationType, id: string, data: OperationRouteCache): ActionRouteCache {
    match kind
    case Source => c.(source := c.source[id := data])
    case Destination => c.(destination := c.destination[id := data])
    case Bidirectional => c.(bidirectional := c.bidirectional[id := data])
    case OtherType(_) => c
  }

  /** What the inner loop leaves after the actions done so far. */
  ghost predicate Added(cache: Cache, before: Cache, r: OperationRoute, done: seq<Action>) {
    && (forall kind, action, id ::
          EntryIn(cache, kind, action, id) ==
          if r.id == id && action in done && r.operationType == kind && !kind.OtherType? then Some(RouteData(r))
          else EntryIn(before, kind, action, id))
    && (forall action :: action in cache <==> action in before || (action in done && !r.operationType.OtherType?))
  }

  function AddAction(cache: Cache, r: OperationRoute, action: Action): Cache {
    if r.operationType.OtherType? then cache
    else
      var c := if action in cache then cache[action] else ActionRouteCache(map[], map[], map[]);
      cache[action := AddRoute(c, r.operationType, r.id, RouteData(r))]
  }

  lemma AddedMore(cache: Cache, before: Cache, r: OperationRoute, done: seq<Action>, action: Action)
    requires Added(cache, before, r, done)
    ensures Added(AddAction(cache, r, action), before, r, done + [action])
  {
    var next := AddAction(cache, r, action);
    forall kind, a, id ensures EntryIn(next, kind, a, id) ==
      if r.id == id && a == action && r.operationType == kind && !kind.OtherType? then Some(RouteData(r))
      else EntryIn(cache, kind, a, id)
    {
    }
  }

  method CacheRoute(before: Cache, r: OperationRoute) returns (cache: Cache)
    ensures exists done ::
      Added(cache, before, r, done) && forall a :: a in done <==> EntryFor(r.accountingEntries, a).Some?
  {
    var routeData := OperationRouteCache(None, r.operationType, r.code, r.description, r.accountingEntries);
    if r.account.Some? {
      routeData := routeData.(account := Some(AccountCache(r.account.value.ruleType, r.account.value.validIf)));
    }
    var actions := Actions(r.accountingEntries);
    cache := before;
    for i := 0 to |actions|
      invariant Added(cache, before, r, actions[..i])
    {
      assert actions[..i + 1] == actions[..i] + [actions[i]];
      if !r.operationType.OtherType? {
        var actionCache := if actions[i] in cache then cache[actions[i]] else ActionRouteCache(map[], map[], map[]);
        assert routeData == RouteData(r);
        AddedMore(cache, before, r, actions[..i], actions[i]);
        cache := cache[actions[i] := AddRoute(actionCache, r.operationType, r.id, routeData)];
      }
    }
    assert actions[..|actions|] == actions;
  }

  lemma IndexesMore(cache: Cache, before: Cache, routes: seq<OperationRoute>, r: OperationRoute, done: seq<Action>)
    requires Indexes(before, routes) && Added(cache, before, r, done)
    requires forall a :: a in done <==> EntryFor(r.accountingEntries, a).Some?
    ensures Indexes(cache, routes + [r])
  {
    var more := routes + [r];
    assert more[..|more| - 1] == routes;
    forall action ensures action in cache <==> exists x, id :: x in more && Serves(x, action, id) {
      if action in before {
        var x, id :| x in routes && Serves(x, action, id);
        assert x in more && Serves(x, action, id);
      }
      if action in done && !r.operationType.OtherType? {
        assert r in more && Serves(r, action, r.id);
      }
    }
  }

  /** The double loop. */
  method ToCache(routes: seq<OperationRoute>) returns (cache: Cache)
    ensures Indexes(cache, routes)
  {
    cache := map[];
    for i := 0 to |routes|
      invariant Indexes(cache, routes[..i])
    {
      var before := cache;
      cache := CacheRoute(before, routes[i]);
      ghost var done :| Added(cache, before, routes[i], done)
        && forall a :: a in done <==> EntryFor(routes[i].accountingEntries, a).Some?;
      IndexesMore(cache, before, routes[..i], routes[i], done);
      assert routes[..i + 1] == routes[..i] + [routes[i]];
    }
    assert routes[..|routes|] == routes;
  }

  // ---------- looking up ----------

  function FindRoute(c: ActionRouteCache, id: string): Option<OperationRouteCache> {
    if id in c.source then Some(c.source[id])
    else if id in c.destination then Some(c.destination[id])
    else if id in c.bidirectional then Some(c.bidirectional[id])
    else None
  }

  /** An action missing from the cache finds nothing. */
  function Lookup(cache: Cache, action: Action, id: string): Option<OperationRouteCache> {
    if action in cache then FindRoute(cache[action], id) else None
  }

  lemma {:induction false} LastOfIff(routes: seq<OperationRoute>, kind: OperationType, action: Action, id: string)
    ensures var found := LastOf(routes, kind, action, id);
            && (found.Some? <==> exists r :: r in routes && Serves(r, action, id) && r.operationType == kind)
            && (found.Some? ==>
                  exists r :: r in routes && Serves(r, action, id) && r.operationType == kind &&
                    found.value == RouteData(r))
  {
    if |routes| > 0 {
      var init, last := routes[..|routes| - 1], routes[|routes| - 1];
      assert routes == init + [last];
      LastOfIff(init, kind, action, id);
      assert last in routes;
    }
  }

  function FirstSome<T>(a: Option<T>, b: Option<T>, c: Option<T>): Option<T> {
    if a.Some? then a else if b.Some? then b else c
  }

  /** For every list, a lookup succeeds exactly when a linear scan meets a route with that
      identifier, a known type and an entry for the action, and returns such a route's data. Where
      identifiers repeat, sources go before destinations before bidirectional routes, and within one
      type the last of the list. */
  lemma LookupIff(cache: Cache, routes: seq<OperationRoute>, action: Action, id: string)
    requires Indexes(cache, routes)
    ensures Lookup(cache, action, id).Some? <==> exists r :: r in routes && Serves(r, action, id)
    ensures Lookup(cache, action, id).Some? ==>
              exists r :: r in routes && Serves(r, action, id) && Lookup(cache, action, id).value == RouteData(r)
    ensures Lookup(cache, action, id) ==
            FirstSome(LastOf(routes, Source, action, id), LastOf(routes, Destination, action, id),
                      LastOf(routes, Bidirectional, action, id))
  {
    LastOfIff(routes, Source, action, id);
    LastOfIff(routes, Destination, action, id);
    LastOfIff(routes, Bidirectional, action, id);
    assert forall kind :: EntryIn(cache, kind, action, id) == LastOf(routes, kind, action, id);
    assert Lookup(cache, action, id) ==
      FirstSome(EntryIn(cache, Source, action, id), EntryIn(cache, Destination, action, id),
                EntryIn(cache, Bidirectional, action, id));
  }

  predicate DistinctIds(routes: seq<OperationRoute>) {
    forall i, j :: 0 <= i < j < |routes| ==> routes[i].id != routes[j].id
  }

  /** With distinct identifiers the answer is the data of the one route that has it, from which the
      route can be read back. */
  lemma LookupReturnsTheRoute(cache: Cache, routes: seq<OperationRoute>, action: Action, i: nat)
    requires Indexes(cache, routes) && DistinctIds(routes) && i < |routes|
    ensures Lookup(cache, action, routes[i].id) ==
            if Serves(routes[i], action, routes[i].id) then Some(RouteData(routes[i])) else None
    ensures Serves(routes[i], action, routes[i].id) ==>
              RouteOf(routes[i].id, Lookup(cache, action, routes[i].id).value) == routes[i]
  {
    DataRoundTrip(routes[i]);
    var id := routes[i].id;
    LookupIff(cache, routes, action, id);
    assert forall r :: r in routes && r.id == id ==> r == routes[i];
    assert routes[i] in routes;
  }

  /** Two caches of the same routes in different orders answer alike. */
  lemma OrderIndependent(c: Cache, d: Cache, r: seq<OperationRoute>, s: seq<OperationRoute>, action: Action, id: string)
    requires Indexes(c, r) && Indexes(d, s) && DistinctIds(r) && multiset(r) == multiset(s)
    ensures Lookup(c, action, id) == Lookup(d, action, id)
  {
    LookupIff(c, r, action, id);
    LookupIff(d, s, action, id);
    forall x ensures x in r <==> x in s {
      assert x in multiset(r) <==> x in multiset(s);
    }
    assert forall x, y :: x in r && y in r && x.id == y.id ==> x == y;
  }
}
