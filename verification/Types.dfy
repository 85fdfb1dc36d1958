/** The entities of pkg/mtransaction/transaction.go that the engine computes with. */
module TransactionTypes {

  datatype Option<+T> = None | Some(value: T)

  datatype Operation = DEBIT | CREDIT | ON_HOLD | RELEASE | OtherOperation(name: string)

  datatype Status = CREATED | APPROVED | PENDING | CANCELED | OtherStatus(code: string)

  /** Accounting direction of a balance or an operation; legacy balances carry the empty one. */
  datatype Direction = DebitDirection | CreditDirection | EmptyDirection

  datatype Amount = Amount(
    asset: string,
    value: real,
    operation: Operation,
    transactionType: Status,
    direction: Direction,
    routeValidation: bool)

  datatype Share = Share(percentage: int, percentageOfPercentage: int)

  /** One source or destination entry. `A` is what the amount pointer holds: `AmountCell`
      where the resolver shares it by reference, `Amount` where only its value matters. */
  datatype FromTo<A> = FromTo(
    accountAlias: string,
    balanceKey: string,
    amount: Option<A>,
    share: Option<Share>,
    remaining: bool,
    isFrom: bool,
    routeId: Option<string>)

  datatype Transaction = Transaction(
    asset: string,
    value: real,
    pending: bool,
    from: seq<FromTo<Amount>>,
    to: seq<FromTo<Amount>>)
  {
    function InitialStatus(): (s: Status)
      ensures s == PENDING <==> pending
    {
      if pending then PENDING else CREATED
    }
  }

  datatype Balance = Balance(
    alias: string,
    key: string,
    available: real,
    onHold: real,
    version: int,
    direction: Direction,
    overdraftUsed: real,
    allowOverdraft: bool,
    overdraftLimitEnabled: bool,
    overdraftLimit: real)

  /** The zero value of the Go struct. */
  const ZERO_BALANCE := Balance("", "", 0.0, 0.0, 0, EmptyDirection, 0.0, false, false, 0.0)

  function Min(a: real, b: real): real {
    if a <= b then a else b
  }
}
