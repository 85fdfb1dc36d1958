/** The balance operations of pkg/mtransaction/validations.go: one operation on one balance,
    the double-entry split of a source operation, and route-validation propagation. */
module BalanceEngine {
  import opened TransactionTypes

  /** Outcome of an apply function: the new Available and OnHold, or unmatched. */
  datatype Change = Change(available: real, onHold: real, matched: bool)

  function ApplyPending(a: Amount, b: Balance): Change {
    if a.operation == DEBIT && a.routeValidation then
      Change(b.available - a.value, b.onHold, true)
    else if a.operation == ON_HOLD && a.routeValidation then
      Change(b.available, b.onHold + a.value, true)
    else if a.operation == ON_HOLD then
      Change(b.available - a.value, b.onHold + a.value, true)
    else
      Change(b.available, b.onHold, false)
  }

  function ApplyCanceled(a: Amount, b: Balance): Change {
    if a.operation == RELEASE && a.routeValidation then
      Change(b.available, b.onHold - a.value, true)
    else if a.operation == RELEASE then
      Change(b.available + a.value, b.onHold - a.value, true)
    else if a.operation == CREDIT && a.routeValidation then
      Change(b.available + a.value, b.onHold, true)
    else
      Change(b.available, b.onHold, false)
  }

  function ApplyApproved(a: Amount, b: Balance): Change {
    match a.operation
    case DEBIT => Change(b.available, b.onHold - a.value, true)
    case ON_HOLD => Change(b.available, b.onHold - a.value, true)
    case CREDIT => Change(b.available + a.value, b.onHold, true)
    case _ => Change(b.available, b.onHold, false)
  }

  function ApplyCreated(a: Amount, b: Balance): Change {
    match a.operation
    case DEBIT => Change(b.available - a.value, b.onHold, true)
    case CREDIT => Change(b.available + a.value, b.onHold, true)
    case _ => Change(b.available, b.onHold, false)
  }

  function ApplyBalanceChange(a: Amount, b: Balance): Change {
    match a.transactionType
    case PENDING => ApplyPending(a, b)
    case CANCELED => ApplyCanceled(a, b)
    case APPROVED => ApplyApproved(a, b)
    case CREATED => ApplyCreated(a, b)
    case _ => Change(b.available, b.onHold, false)
  }

  function ApplyDebitDirection(a: Amount, b: Balance): Change {
    match a.operation
    case DEBIT => Change(b.available + a.value, b.onHold, true)
    case CREDIT => Change(b.available - a.value, b.onHold, true)
    case _ => ApplyBalanceChange(a, b)
  }

  /** A matched operation returns a bare balance holding only the three changed fields. */
  function OperateBalances(a: Amount, b: Balance): Balance {
    var c := if b.direction == DebitDirection then ApplyDebitDirection(a, b) else ApplyBalanceChange(a, b);
    if c.matched then ZERO_BALANCE.(available := c.available, onHold := c.onHold, version := b.version + 1)
    else b
  }

  /** The caller's merge of that result into the stored row. */
  function OperateRow(a: Amount, b: Balance): Balance {
    var r := OperateBalances(a, b);
    b.(available := r.available, onHold := r.onHold, version := r.version)
  }

  predicate IsDoubleEntrySource(a: Amount) {
    a.routeValidation &&
    match a.transactionType
    case PENDING => a.operation == ON_HOLD
    case CANCELED => a.operation == RELEASE
    case _ => false
  }

  function SplitDoubleEntryOps(a: Amount): (Amount, Amount) {
    match a.transactionType
    case PENDING =>
      (a.(operation := DEBIT, direction := DebitDirection),
       a.(operation := ON_HOLD, direction := CreditDirection))
    case CANCELED =>
      (a.(operation := RELEASE, direction := DebitDirection),
       a.(operation := CREDIT, direction := CreditDirection))
    case _ => (a, a)
  }

  function DetermineOperation(isPending: bool, isFrom: bool, status: Status): (Operation, Direction) {
    if isPending && status == PENDING then
      if isFrom then (ON_HOLD, DebitDirection) else (CREDIT, CreditDirection)
    else if isPending && isFrom && status == CANCELED then (RELEASE, CreditDirection)
    else if isPending && status == APPROVED then
      if isFrom then (DEBIT, DebitDirection) else (CREDIT, CreditDirection)
    else if !isPending then
      if isFrom then (DEBIT, DebitDirection) else (CREDIT, CreditDirection)
    else (CREDIT, CreditDirection)
  }

  /** The rewrite of one source amount under route validation. */
  function PropagateAmount(a: Amount, status: Status): Amount {
    if status != PENDING && status != CANCELED && status != APPROVED then a
    else a.(routeValidation := true,
            operation := if status == APPROVED && a.operation == DEBIT then ON_HOLD else a.operation)
  }

  function PropagateAll(from: map<string, Amount>, status: Status): map<string, Amount> {
    map k | k in from :: PropagateAmount(from[k], status)
  }

  /** PropagateRouteValidation: rewrites the From entries one by one, in whatever order the
      map yields them; destinations are never touched. */
  method PropagateRouteValidation(from: map<string, Amount>, status: Status)
    returns (result: map<string, Amount>)
    ensures result == PropagateAll(from, status)
  {
    result := from;
    if status != PENDING && status != CANCELED && status != APPROVED {
      return;
    }
    var todo := from.Keys;
    while todo != {}
      invariant todo <= from.Keys == result.Keys
      invariant forall k :: k in from ==>
        result[k] == if k in todo then from[k] else PropagateAmount(from[k], status)
    {
      var key :| key in todo;
      var amt := result[key].(routeValidation := true);
      if status == APPROVED && amt.operation == DEBIT {
        amt := amt.(operation := ON_HOLD);
      }
      result := result[key := amt];
      todo := todo - {key};
    }
  }

  /** What one leg does to its row: both halves of a double-entry source, else one operation. */
  function ApplyLeg(a: Amount, b: Balance): Balance {
    if IsDoubleEntrySource(a) then
      var (op1, op2) := SplitDoubleEntryOps(a);
      OperateRow(op2, OperateRow(op1, b))
    else OperateRow(a, b)
  }

  // ---------- every operation is a translation ----------

  /** How far an operation moves a row; it depends on the row's direction only. */
  datatype Delta = Delta(available: real, onHold: real, version: int) {
    function Plus(d: Delta): Delta {
      Delta(available + d.available, onHold + d.onHold, version + d.version)
    }
  }

  function Shift(b: Balance, d: Delta): Balance {
    b.(available := b.available + d.available, onHold := b.onHold + d.onHold, version := b.version + d.version)
  }

  /** The displacement seen on an empty row of that direction. */
  function OpDelta(a: Amount, dir: Direction): Delta {
    var r := OperateRow(a, ZERO_BALANCE.(direction := dir));
    Delta(r.available, r.onHold, r.version)
  }

  function LegDelta(a: Amount, dir: Direction): Delta {
    var r := ApplyLeg(a, ZERO_BALANCE.(direction := dir));
    Delta(r.available, r.onHold, r.version)
  }

  lemma OperateTranslates(a: Amount, b: Balance)
    ensures OperateRow(a, b) == Shift(b, OpDelta(a, b.direction))
  {
  }

  lemma LegTranslates(a: Amount, b: Balance)
    ensures ApplyLeg(a, b) == Shift(b, LegDelta(a, b.direction))
  {
    if IsDoubleEntrySource(a) {
      var (op1, op2) := SplitDoubleEntryOps(a);
      var z := ZERO_BALANCE.(direction := b.direction);
      OperateTranslates(op1, b);
      OperateTranslates(op2, OperateRow(op1, b));
      OperateTranslates(op1, z);
      OperateTranslates(op2, OperateRow(op1, z));
    } else {
      OperateTranslates(a, b);
    }
  }

  /** Operations on one row commute, so the order the script sorts them into is irrelevant. */
  lemma OperationsCommute(a: Amount, c: Amount, b: Balance)
    ensures OperateRow(a, OperateRow(c, b)) == OperateRow(c, OperateRow(a, b))
  {
    OperateTranslates(a, b);
    OperateTranslates(c, b);
    OperateTranslates(a, OperateRow(c, b));
    OperateTranslates(c, OperateRow(a, b));
  }

  // ---------- operations as signs ----------

  datatype Sign = Minus | Zero | Plus {
    function Of(v: real): real {
      match this case Minus => -v case Zero => 0.0 case Plus => v
    }
  }

  datatype Effect = Effect(available: Sign, onHold: Sign)

  /** Which way one operation moves Available and OnHold. */
  function OpSigns(a: Amount, dir: Direction): Effect {
    if dir == DebitDirection && a.operation == DEBIT then Effect(Plus, Zero)
    else if dir == DebitDirection && a.operation == CREDIT then Effect(Minus, Zero)
    else match (a.transactionType, a.operation)
      case (PENDING, DEBIT) => Effect(if a.routeValidation then Minus else Zero, Zero)
      case (PENDING, ON_HOLD) => Effect(if a.routeValidation then Zero else Minus, Plus)
      case (CANCELED, RELEASE) => Effect(if a.routeValidation then Zero else Plus, Minus)
      case (CANCELED, CREDIT) => Effect(if a.routeValidation then Plus else Zero, Zero)
      case (APPROVED, DEBIT) => Effect(Zero, Minus)
      case (APPROVED, ON_HOLD) => Effect(Zero, Minus)
      case (APPROVED, CREDIT) => Effect(Plus, Zero)
      case (CREATED, DEBIT) => Effect(Minus, Zero)
      case (CREATED, CREDIT) => Effect(Plus, Zero)
      case _ => Effect(Zero, Zero)
  }

  function LegSigns(a: Amount, dir: Direction): Effect {
    if !IsDoubleEntrySource(a) then OpSigns(a, dir)
    else if a.transactionType == PENDING then Effect(if dir == DebitDirection then Plus else Minus, Plus)
    else Effect(if dir == DebitDirection then Minus else Plus, Minus)
  }

  lemma OpSignsCorrect(a: Amount, b: Balance)
    ensures var r, e := OperateRow(a, b), OpSigns(a, b.direction);
            && r.direction == b.direction
            && r.available == b.available + e.available.Of(a.value)
            && r.onHold == b.onHold + e.onHold.Of(a.value)
  {
  }

  lemma LegSignsCorrect(a: Amount, b: Balance)
    ensures var r, e := ApplyLeg(a, b), LegSigns(a, b.direction);
            && r.direction == b.direction
            && r.available == b.available + e.available.Of(a.value)
            && r.onHold == b.onHold + e.onHold.Of(a.value)
  {
    if IsDoubleEntrySource(a) {
      var (op1, op2) := SplitDoubleEntryOps(a);
      OpSignsCorrect(op1, b);
      OpSignsCorrect(op2, OperateRow(op1, b));
    } else {
      OpSignsCorrect(a, b);
    }
  }

  // ---------- versions, directions and what is left alone ----------

  /** Whether an operation does anything on a row of that direction. */
  predicate Effective(a: Amount, dir: Direction) {
    OpSigns(a, dir) != Effect(Zero, Zero)
  }

  /** An effective operation adds one to the version, any other leaves the row as it is; only
      Available, OnHold and Version ever change. */
  lemma OpVersion(a: Amount, b: Balance)
    ensures var r := OperateRow(a, b);
            && r.version == b.version + (if Effective(a, b.direction) then 1 else 0)
            && r == b.(available := r.available, onHold := r.onHold, version := r.version)
            && (!Effective(a, b.direction) ==> r == b)
  {
  }

  /** How many operations of a leg take effect. */
  function LegOps(a: Amount, dir: Direction): nat {
    if IsDoubleEntrySource(a) then 2 else if Effective(a, dir) then 1 else 0
  }

  lemma LegVersion(a: Amount, b: Balance)
    ensures var r := ApplyLeg(a, b);
            && r.version == b.version + LegOps(a, b.direction)
            && r == b.(available := r.available, onHold := r.onHold, version := r.version)
  {
    if IsDoubleEntrySource(a) {
      var (op1, op2) := SplitDoubleEntryOps(a);
      OpVersion(op1, b);
      OpVersion(op2, OperateRow(op1, b));
    } else {
      OpVersion(a, b);
    }
  }

  /** DEBIT and ON_HOLD are debits, CREDIT and RELEASE credits; destinations are only ever credited,
      and a source of a transaction that is not pending is debited under every status. */
  lemma OperationDirection(isPending: bool, isFrom: bool, status: Status)
    ensures var (op, dir) := DetermineOperation(isPending, isFrom, status);
            && dir == (if op in {DEBIT, ON_HOLD} then DebitDirection else CreditDirection)
            && op in {DEBIT, ON_HOLD, CREDIT, RELEASE}
            && (!isFrom ==> op == CREDIT)
            && (isFrom && !isPending ==> op == DEBIT)
            && (isFrom && isPending ==>
                  && (op == ON_HOLD <==> status == PENDING)
                  && (op == RELEASE <==> status == CANCELED)
                  && (op == DEBIT <==> status == APPROVED))
  {
  }

  /** A split is a debit and a credit of the same amount, one on Available and one on OnHold. */
  lemma SplitIsDoubleEntry(a: Amount, dir: Direction)
    requires IsDoubleEntrySource(a)
    ensures var (op1, op2) := SplitDoubleEntryOps(a);
            && op1 == a.(operation := op1.operation, direction := DebitDirection)
            && op2 == a.(operation := op2.operation, direction := CreditDirection)
            && (a.operation == op1.operation || a.operation == op2.operation)
            && (OpSigns(op1, dir).available == Zero <==> OpSigns(op1, dir).onHold != Zero)
            && (OpSigns(op1, dir).available == Zero <==> OpSigns(op2, dir).onHold == Zero)
            && (OpSigns(op2, dir).available == Zero <==> OpSigns(op2, dir).onHold != Zero)
  {
  }

  /** Propagation flags a source once, touches nothing else but a committed DEBIT, and leaves a
      direct transaction alone. */
  lemma PropagationKeeps(a: Amount, status: Status)
    ensures var p := PropagateAmount(a, status);
            && PropagateAmount(p, status) == p
            && p == a.(routeValidation := p.routeValidation, operation := p.operation)
            && (status == CREATED ==> p == a)
            && (status in {PENDING, CANCELED, APPROVED} ==> p.routeValidation)
            && (p.operation != a.operation <==> status == APPROVED && a.operation == DEBIT)
  {
  }

  // ---------- double entry refines the legacy form ----------

  predicate SameMoney(a: Balance, b: Balance) {
    a.available == b.available && a.onHold == b.onHold
  }

  /** The source amount a pending transaction of value v produces under a status. */
  function SourceAmount(asset: string, v: real, pending: bool, status: Status): Amount {
    var (op, dir) := DetermineOperation(pending, true, status);
    Amount(asset, v, op, status, dir, false)
  }

  /** On credit (or legacy empty) rows, propagate-split-apply equals the legacy operation, for
      hold, commit and cancel alike, and the two halves may be applied in either order. */
  lemma DoubleEntryRefinesLegacy(asset: string, v: real, status: Status, b: Balance)
    requires status in {PENDING, APPROVED, CANCELED} && b.direction != DebitDirection
    ensures var legacy := SourceAmount(asset, v, true, status);
            SameMoney(ApplyLeg(PropagateAmount(legacy, status), b), OperateRow(legacy, b))
    ensures var routed := PropagateAmount(SourceAmount(asset, v, true, status), status);
            IsDoubleEntrySource(routed) ==>
              var (op1, op2) := SplitDoubleEntryOps(routed);
              OperateRow(op1, OperateRow(op2, b)) == ApplyLeg(routed, b)
  {
    var routed := PropagateAmount(SourceAmount(asset, v, true, status), status);
    var (op1, op2) := SplitDoubleEntryOps(routed);
    OperationsCommute(op1, op2, b);
  }

  function RoutedSource(asset: string, v: real, status: Status): Amount {
    PropagateAmount(SourceAmount(asset, v, true, status), status)
  }

  /** Under route validation the source lifecycle laws hold on rows of every direction. */
  lemma RoutedSourceLifecycle(asset: string, v: real, b: Balance)
    ensures var held := ApplyLeg(RoutedSource(asset, v, PENDING), b);
            && SameMoney(ApplyLeg(RoutedSource(asset, v, APPROVED), held),
                         OperateRow(SourceAmount(asset, v, false, CREATED), b))
            && SameMoney(ApplyLeg(RoutedSource(asset, v, CANCELED), held), b)
  {
    var hold, commit, cancel :=
      RoutedSource(asset, v, PENDING), RoutedSource(asset, v, APPROVED), RoutedSource(asset, v, CANCELED);
    LegSignsCorrect(hold, b);
    LegSignsCorrect(commit, ApplyLeg(hold, b));
    LegSignsCorrect(cancel, ApplyLeg(hold, b));
    OpSignsCorrect(SourceAmount(asset, v, false, CREATED), b);
  }

  /** The legacy source lifecycle holds on a row exactly when it is not debit-direction or
      nothing moves: a debit-direction row takes the committed DEBIT as an increase of Available
      and keeps the amount on hold. */
  lemma LegacySourceLifecycle(asset: string, v: real, b: Balance)
    ensures var held := ApplyLeg(SourceAmount(asset, v, true, PENDING), b);
            && (SameMoney(ApplyLeg(SourceAmount(asset, v, true, APPROVED), held),
                          OperateRow(SourceAmount(asset, v, false, CREATED), b))
                <==> b.direction != DebitDirection || v == 0.0)
            && SameMoney(ApplyLeg(SourceAmount(asset, v, true, CANCELED), held), b)
  {
  }
}
