/** Overdraft: the split, limit and refund functions of pkg/mtransaction/overdraft.go composed into
    the debit and credit steps of the balance script, run against a balance and its
    debit-direction companion. */
module Overdraft {
  import opened TransactionTypes
  import opened BalanceEngine

  /** (debitOnDefault, debitOnOverdraft) */
  function CalculateOverdraftSplit(available: real, debitAmount: real): (real, real) {
    var onDefault := Min(available, debitAmount);
    (onDefault, debitAmount - onDefault)
  }

  predicate WithinOverdraftLimit(used: real, deficit: real, limit: real, limitEnabled: bool) {
    limitEnabled ==> used + deficit <= limit
  }

  /** (splitNeeded, deficit) */
  function DetectOverdraftSplit(a: Amount, b: Balance): (bool, real) {
    if b.direction != CreditDirection then (false, 0.0)
    else if !b.allowOverdraft then (false, 0.0)
    else if a.operation != DEBIT then (false, 0.0)
    else if a.value <= b.available then (false, 0.0)
    else (true, a.value - b.available)
  }

  /** (creditOnOverdraft, creditOnDefault) */
  function CalculateRefundSplit(creditAmount: real, used: real): (real, real) {
    var onOverdraft := Min(creditAmount, used);
    (onOverdraft, creditAmount - onOverdraft)
  }

  datatype Refund = Refund(splitNeeded: bool, repayAmount: real, cleared: bool)

  function DetectRefundSplit(a: Amount, b: Balance): Refund {
    if b.direction != CreditDirection then Refund(false, 0.0, false)
    else if a.operation != CREDIT then Refund(false, 0.0, false)
    else if b.overdraftUsed <= 0.0 then Refund(false, 0.0, false)
    else
      var repay := Min(a.value, b.overdraftUsed);
      Refund(true, repay, b.overdraftUsed - repay == 0.0)
  }

  /** Both halves add up; they are non-negative exactly when both arguments are, so on a balance
      already below zero the documented guarantee does not hold. */
  lemma SplitHalves(available: real, debit: real, credit: real, used: real)
    ensures var (onDefault, onOverdraft) := CalculateOverdraftSplit(available, debit);
            && onDefault + onOverdraft == debit
            && (onDefault >= 0.0 && onOverdraft >= 0.0 <==> available >= 0.0 && debit >= 0.0)
    ensures var (onOverdraft, onDefault) := CalculateRefundSplit(credit, used);
            && onOverdraft + onDefault == credit && onOverdraft <= used
            && (onOverdraft >= 0.0 && onDefault >= 0.0 <==> credit >= 0.0 && used >= 0.0)
  {
  }

  /** When a split is signalled, as documented, and for how much. */
  lemma SplitDetectedIff(a: Amount, b: Balance)
    ensures var (split, deficit) := DetectOverdraftSplit(a, b);
            && (split <==>
                b.direction == CreditDirection && a.operation == DEBIT && b.allowOverdraft && a.value > b.available)
            && (split ==> deficit > 0.0 && b.available + deficit == a.value)
            && (!split ==> deficit == 0.0)
    ensures var r := DetectRefundSplit(a, b);
            && (r.splitNeeded <==> b.direction == CreditDirection && a.operation == CREDIT && b.overdraftUsed > 0.0)
            && (r.splitNeeded ==>
                  r.repayAmount == CalculateRefundSplit(a.value, b.overdraftUsed).0 &&
                  (r.cleared <==> a.value >= b.overdraftUsed))
            && (!r.splitNeeded ==> r.repayAmount == 0.0 && !r.cleared)
  {
  }

  // ---------- steps ----------

  /** A balance and the system-managed companion that tracks its overdraft as a liability. */
  datatype Account = Account(main: Balance, companion: Balance)

  /** An entry carries the version of the balance its splits were computed from. */
  datatype Entry = Debit(value: real, version: int) | Credit(value: real, version: int)

  datatype Outcome = Accepted(account: Account) | InsufficientFunds | OverdraftLimitExceeded | StaleBalance

  function Posted(op: Operation, value: real): Amount {
    Amount("", value, op, CREATED, EmptyDirection, false)
  }

  function ApplyDebit(x: Account, value: real, version: int): Outcome {
    var a, b := Posted(DEBIT, value), x.main;
    var (split, deficit) := DetectOverdraftSplit(a, b);
    if split then
      if b.version != version then StaleBalance
      else if !WithinOverdraftLimit(b.overdraftUsed, deficit, b.overdraftLimit, b.overdraftLimitEnabled) then
        OverdraftLimitExceeded
      else
        var (onDefault, onOverdraft) := CalculateOverdraftSplit(b.available, value);
        Accepted(Account(OperateRow(a.(value := onDefault), b).(overdraftUsed := b.overdraftUsed + onOverdraft),
                         OperateRow(Posted(DEBIT, deficit), x.companion)))
    else
      var r := OperateRow(a, b);
      if r.available < 0.0 then InsufficientFunds else Accepted(x.(main := r))
  }

  function ApplyCredit(x: Account, value: real, version: int): Outcome {
    var a, b := Posted(CREDIT, value), x.main;
    var refund := DetectRefundSplit(a, b);
    if refund.splitNeeded && b.version != version then StaleBalance
    else if refund.splitNeeded then
      var (onOverdraft, onDefault) := CalculateRefundSplit(value, b.overdraftUsed);
      Accepted(Account(OperateRow(a.(value := onDefault), b).(overdraftUsed := b.overdraftUsed - onOverdraft),
                       OperateRow(Posted(CREDIT, refund.repayAmount), x.companion)))
    else
      Accepted(x.(main := OperateRow(a, b)))
  }

  function ApplyEntry(x: Account, e: Entry): Outcome {
    match e
    case Debit(v, version) => ApplyDebit(x, v, version)
    case Credit(v, version) => ApplyCredit(x, v, version)
  }

  function AfterEntry(x: Account, e: Entry): Account {
    var o := ApplyEntry(x, e);
    if o.Accepted? then o.account else x
  }

  function RunEntries(x: Account, es: seq<Entry>): Account
    decreases es
  {
    if es == [] then x else RunEntries(AfterEntry(x, es[0]), es[1..])
  }

  // ---------- what every run keeps ----------

  predicate Sound(x: Account) {
    var b := x.main;
    && b.direction == CreditDirection && x.companion.direction == DebitDirection
    && b.available >= 0.0 && b.overdraftUsed >= 0.0
    && (b.available == 0.0 || b.overdraftUsed == 0.0)
    && (b.overdraftLimitEnabled && b.allowOverdraft ==> b.overdraftUsed <= b.overdraftLimit)
    && x.companion.available == b.overdraftUsed
  }

  predicate SameTerms(a: Balance, b: Balance) {
    && a.direction == b.direction && a.onHold == b.onHold && a.allowOverdraft == b.allowOverdraft
    && a.overdraftLimitEnabled == b.overdraftLimitEnabled && a.overdraftLimit == b.overdraftLimit
  }

  function Net(b: Balance): real {
    b.available - b.overdraftUsed
  }

  /** The signed amount an entry moves if it is accepted. */
  function Signed(x: Account, e: Entry): real {
    if !ApplyEntry(x, e).Accepted? then 0.0 else match e case Debit(v, _) => -v case Credit(v, _) => v
  }

  /** An enabled limit is respected, whether or not overdraft is allowed. */
  predicate LimitRespected(b: Balance) {
    b.overdraftLimitEnabled ==> b.overdraftUsed <= b.overdraftLimit
  }

  /** One step: soundness and the terms are kept, the net position moves by the signed amount, and
      a refund reports `cleared` exactly when the overdraft, and with it the companion, is at zero. */
  lemma EntryKeeps(x: Account, e: Entry)
    requires Sound(x) && e.value >= 0.0
    ensures var y := AfterEntry(x, e);
            Sound(y) && SameTerms(y.main, x.main) && Net(y.main) == Net(x.main) + Signed(x, e)
    ensures LimitRespected(x.main) ==> LimitRespected(AfterEntry(x, e).main)
    ensures var refund := DetectRefundSplit(Posted(CREDIT, e.value), x.main);
            e.Credit? && refund.splitNeeded && ApplyEntry(x, e).Accepted? ==>
              (refund.cleared <==> AfterEntry(x, e).main.overdraftUsed == 0.0) &&
              (refund.cleared <==> AfterEntry(x, e).companion.available == 0.0)
  {
  }

  function SignedTotal(x: Account, es: seq<Entry>): real
    decreases es
  {
    if es == [] then 0.0 else Signed(x, es[0]) + SignedTotal(AfterEntry(x, es[0]), es[1..])
  }

  /** Every run of debits and credits: never both money and overdraft, never over the limit, the
      companion always equal to the overdraft, and the net position accounts for every entry. */
  lemma {:induction false} RunKeeps(x: Account, es: seq<Entry>)
    requires Sound(x) && forall i :: 0 <= i < |es| ==> es[i].value >= 0.0
    ensures var y := RunEntries(x, es);
            Sound(y) && SameTerms(y.main, x.main) && Net(y.main) == Net(x.main) + SignedTotal(x, es)
    ensures LimitRespected(x.main) ==> LimitRespected(RunEntries(x, es).main)
    decreases es
  {
    if es != [] {
      EntryKeeps(x, es[0]);
      RunKeeps(AfterEntry(x, es[0]), es[1..]);
    }
  }

  // ---------- which entries are accepted ----------

  /** Which debits are accepted, in terms of the balance alone; one that needs overdraft must have
      been computed from its current version. A rejected one says why. */
  lemma DebitAcceptedIff(x: Account, value: real, version: int)
    requires Sound(x)
    ensures var b, o := x.main, ApplyDebit(x, value, version);
            && (o.Accepted? <==>
                if !b.allowOverdraft then value <= b.available
                else
                  && (value > b.available ==> version == b.version)
                  && (b.overdraftLimitEnabled ==> value <= b.available + (b.overdraftLimit - b.overdraftUsed)))
            && (o == InsufficientFunds <==> !b.allowOverdraft && value > b.available)
            && (o == StaleBalance <==> b.allowOverdraft && value > b.available && version != b.version)
  {
  }

  /** A credit is accepted exactly when nothing is overdrawn or it was computed from the current
      version. It repays as much as it can, and only the rest becomes available. */
  lemma CreditAcceptedIff(x: Account, value: real, version: int)
    requires Sound(x) && value >= 0.0
    ensures var b, o := x.main, ApplyCredit(x, value, version);
            && (o.Accepted? <==> b.overdraftUsed == 0.0 || version == b.version)
            && (!o.Accepted? ==> o == StaleBalance)
            && (o.Accepted? ==>
                  var repaid, y := Min(value, b.overdraftUsed), o.account;
                  && y.main.overdraftUsed == b.overdraftUsed - repaid
                  && y.main.available == b.available + (value - repaid)
                  && y.companion.available == x.companion.available - repaid)
  {
  }

  /** In every reachable state a credit of what is overdrawn, computed from the current version,
      clears it and leaves the rest as it was. */
  lemma FullRepaymentClears(x: Account, es: seq<Entry>)
    requires Sound(x) && forall i :: 0 <= i < |es| ==> es[i].value >= 0.0
    ensures var y := RunEntries(x, es);
            var o := ApplyCredit(y, y.main.overdraftUsed, y.main.version);
            && o.Accepted? && o.account.main.overdraftUsed == 0.0 && o.account.companion.available == 0.0
            && o.account.main.available == y.main.available
  {
    RunKeeps(x, es);
    var y := RunEntries(x, es);
    CreditAcceptedIff(y, y.main.overdraftUsed, y.main.version);
  }

  // ---------- versions ----------

  predicate NeedsSplit(b: Balance, e: Entry) {
    match e
    case Debit(v, _) => b.direction == CreditDirection && b.allowOverdraft && v > b.available
    case Credit(_, _) => b.direction == CreditDirection && b.overdraftUsed > 0.0
  }

  /** Every accepted entry makes a new version. */
  lemma AcceptedIsNewVersion(x: Account, e: Entry)
    requires x.main.direction == CreditDirection && ApplyEntry(x, e).Accepted?
    ensures AfterEntry(x, e).main.version == x.main.version + 1
    ensures AfterEntry(x, e).main.direction == CreditDirection
  {
  }

  /** So a split computed before an accepted entry is rejected after it. */
  lemma StaleSplitRejected(x: Account, e: Entry, later: Entry)
    requires x.main.direction == CreditDirection && ApplyEntry(x, e).Accepted?
    requires later.version == x.main.version && NeedsSplit(AfterEntry(x, e).main, later)
    ensures ApplyEntry(AfterEntry(x, e), later) == StaleBalance
  {
    AcceptedIsNewVersion(x, e);
    StaleIsRejected(AfterEntry(x, e), later);
  }

  lemma StaleIsRejected(y: Account, e: Entry)
    requires NeedsSplit(y.main, e) && e.version != y.main.version
    ensures ApplyEntry(y, e) == StaleBalance
  {
  }

  function AcceptedCount(x: Account, es: seq<Entry>): nat
    decreases es
  {
    if es == [] then 0
    else (if ApplyEntry(x, es[0]).Accepted? then 1 else 0) + AcceptedCount(AfterEntry(x, es[0]), es[1..])
  }

  /** The version counts the accepted entries. */
  lemma {:induction false} VersionCounts(x: Account, es: seq<Entry>)
    requires x.main.direction == CreditDirection
    ensures RunEntries(x, es).main.version == x.main.version + AcceptedCount(x, es)
    decreases es
  {
    if es != [] {
      if ApplyEntry(x, es[0]).Accepted? {
        AcceptedIsNewVersion(x, es[0]);
      }
      VersionCounts(AfterEntry(x, es[0]), es[1..]);
    }
  }

  // ---------- settings and the published position ----------

  datatype BalanceSettings = BalanceSettings(
    balanceScope: string,
    allowOverdraft: bool,
    overdraftLimitEnabled: bool,
    overdraftLimit: Option<string>)

  datatype SettingsError =
    | InvalidScope | LimitNotAllowed | LimitRequired | LimitEmpty | LimitMalformed | LimitNotPositive

  /** Decimal parsing belongs to the decimal library. */
  type Parser = string -> Option<real>

  function ValidateOverdraftLimit(s: BalanceSettings, parse: Parser): Option<SettingsError> {
    if !s.overdraftLimitEnabled then
      if s.overdraftLimit.Some? then Some(LimitNotAllowed) else None
    else if s.overdraftLimit.None? then Some(LimitRequired)
    else if s.overdraftLimit.value == "" then Some(LimitEmpty)
    else if parse(s.overdraftLimit.value).None? then Some(LimitMalformed)
    else if parse(s.overdraftLimit.value).value <= 0.0 then Some(LimitNotPositive)
    else None
  }

  function ValidateSettings(s: Option<BalanceSettings>, parse: Parser): Option<SettingsError> {
    if s.None? then None
    else if s.value.balanceScope !in {"", "transactional", "internal"} then Some(InvalidScope)
    else ValidateOverdraftLimit(s.value, parse)
  }

  /** The stored balance; its settings are optional and carry the limit as text. */
  datatype StoredBalance = StoredBalance(
    alias: string,
    key: string,
    available: real,
    onHold: real,
    version: int,
    direction: Direction,
    overdraftUsed: real,
    settings: Option<BalanceSettings>)

  /** Fails closed on a limit that does not parse. */
  function ToTransactionBalance(b: StoredBalance, parse: Parser): Option<Balance> {
    var flat := Balance(
      b.alias, b.key, b.available, b.onHold, b.version, b.direction, b.overdraftUsed, false, false, 0.0);
    if b.settings.None? then Some(flat)
    else
      var s := b.settings.value;
      var withFlags := flat.(allowOverdraft := s.allowOverdraft, overdraftLimitEnabled := s.overdraftLimitEnabled);
      if s.overdraftLimit.None? then Some(withFlags)
      else if parse(s.overdraftLimit.value).None? then None
      else Some(withFlags.(overdraftLimit := parse(s.overdraftLimit.value).value))
  }

  datatype Position = Position(available: real, onHold: real, overdraftLimitAvailable: Option<real>)

  function ComputePosition(available: real, onHold: real, used: real, settings: Option<BalanceSettings>, parse: Parser)
    : Position
  {
    var net := available - used;
    if settings.None? || !settings.value.allowOverdraft then Position(net, onHold, Some(0.0))
    else if !settings.value.overdraftLimitEnabled then Position(net, onHold, None)
    else
      var text := settings.value.overdraftLimit;
      var limit := if text.Some? && parse(text.value).Some? then parse(text.value).value else 0.0;
      Position(net, onHold, Some(limit - used))
  }

  /** Exactly the valid settings: a known scope, and a limit given exactly when it is enabled, and
      then a positive number. */
  lemma SettingsValidIff(s: BalanceSettings, parse: Parser)
    ensures ValidateSettings(Some(s), parse).None? <==>
            && (s.balanceScope == "" || s.balanceScope == "transactional" || s.balanceScope == "internal")
            && (s.overdraftLimitEnabled <==> s.overdraftLimit.Some?)
            && (s.overdraftLimit.Some? ==>
                  var text := s.overdraftLimit.value;
                  text != "" && parse(text).Some? && parse(text).value > 0.0)
  {
  }

  /** Conversion fails exactly on a limit that does not parse, and otherwise keeps the balance. */
  lemma ConversionKeeps(b: StoredBalance, parse: Parser)
    ensures ToTransactionBalance(b, parse).None? <==>
            b.settings.Some? && b.settings.value.overdraftLimit.Some? &&
            parse(b.settings.value.overdraftLimit.value).None?
    ensures ToTransactionBalance(b, parse).Some? ==>
              var t := ToTransactionBalance(b, parse).value;
              && t.alias == b.alias && t.key == b.key && t.direction == b.direction && t.version == b.version
              && t.available == b.available && t.onHold == b.onHold && t.overdraftUsed == b.overdraftUsed
              && (b.settings.None? ==> !t.allowOverdraft && !t.overdraftLimitEnabled)
              && (b.settings.Some? ==> t.allowOverdraft == b.settings.value.allowOverdraft)
  {
  }

  /** Headroom is absent exactly for unlimited overdraft, and zero exactly without overdraft or at
      the limit; a malformed limit counts as none. OnHold is passed on. */
  lemma PositionShows(available: real, onHold: real, used: real, s: BalanceSettings, parse: Parser)
    ensures var p := ComputePosition(available, onHold, used, Some(s), parse);
            && p.onHold == onHold && p.available + used == available
            && (p.overdraftLimitAvailable.None? <==> s.allowOverdraft && !s.overdraftLimitEnabled)
            && (!s.allowOverdraft ==> p.overdraftLimitAvailable == Some(0.0))
            && (s.allowOverdraft && s.overdraftLimitEnabled &&
                (s.overdraftLimit.None? || parse(s.overdraftLimit.value).None?) ==>
                  p.overdraftLimitAvailable == Some(-used))
    ensures ComputePosition(available, onHold, used, None, parse) ==
            ComputePosition(available, onHold, used, Some(s.(allowOverdraft := false)), parse)
  {
  }

  /** Validated settings always convert. */
  lemma ValidatedConverts(b: StoredBalance, parse: Parser)
    requires ValidateSettings(b.settings, parse).None?
    ensures ToTransactionBalance(b, parse).Some?
  {
  }

  /** The published headroom, in terms of the converted balance. */
  lemma HeadroomIs(b: StoredBalance, parse: Parser, tb: Balance, available: real, onHold: real, used: real)
    requires ValidateSettings(b.settings, parse).None? && ToTransactionBalance(b, parse) == Some(tb)
    ensures ComputePosition(available, onHold, used, b.settings, parse).overdraftLimitAvailable ==
            if !tb.allowOverdraft then Some(0.0)
            else if tb.overdraftLimitEnabled then Some(tb.overdraftLimit - used) else None
  {
  }

  /** In every reachable state the published position tells exactly which debits are accepted: all
      of them when the headroom is omitted, otherwise those up to Available plus the headroom. */
  lemma HeadroomDecides(b: StoredBalance, tb: Balance, companion: Balance, parse: Parser, es: seq<Entry>, value: real)
    requires ValidateSettings(b.settings, parse).None? && ToTransactionBalance(b, parse) == Some(tb)
    requires Sound(Account(tb, companion)) && forall i :: 0 <= i < |es| ==> es[i].value >= 0.0
    ensures var y := RunEntries(Account(tb, companion), es);
            var p := ComputePosition(y.main.available, y.main.onHold, y.main.overdraftUsed, b.settings, parse);
            ApplyDebit(y, value, y.main.version).Accepted? <==>
              p.overdraftLimitAvailable.None? || value <= y.main.available + p.overdraftLimitAvailable.value
  {
    var y := RunEntries(Account(tb, companion), es);
    RunKeeps(Account(tb, companion), es);
    DebitAcceptedIff(y, value, y.main.version);
    HeadroomIs(b, parse, tb, y.main.available, y.main.onHold, y.main.overdraftUsed);
  }

  lemma PositionIsNet(b: StoredBalance, tb: Balance, parse: Parser, y: Balance)
    requires ToTransactionBalance(b, parse) == Some(tb)
    ensures ComputePosition(y.available, y.onHold, y.overdraftUsed, b.settings, parse).available == Net(y)
    ensures ComputePosition(b.available, b.onHold, b.overdraftUsed, b.settings, parse).available == Net(tb)
  {
  }

  /** The published net position is the opening one plus every accepted entry. */
  lemma PositionAccounts(b: StoredBalance, tb: Balance, companion: Balance, parse: Parser, es: seq<Entry>)
    requires ToTransactionBalance(b, parse) == Some(tb)
    requires Sound(Account(tb, companion)) && forall i :: 0 <= i < |es| ==> es[i].value >= 0.0
    ensures var y := RunEntries(Account(tb, companion), es).main;
            ComputePosition(y.available, y.onHold, y.overdraftUsed, b.settings, parse).available ==
            ComputePosition(b.available, b.onHold, b.overdraftUsed, b.settings, parse).available +
            SignedTotal(Account(tb, companion), es)
  {
    RunKeeps(Account(tb, companion), es);
    PositionIsNet(b, tb, parse, RunEntries(Account(tb, companion), es).main);
  }
}
