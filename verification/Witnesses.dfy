/** Concrete transactions on which the laws that do not hold everywhere fail. */
module Witnesses {
  import opened TransactionTypes
  import opened Aliases
  import opened Resolver
  import opened SendValidation
  import opened Reresolution
  import opened LedgerModel
  import opened LedgerEffects
  import opened LedgerRuns
  import opened Conservation

  function Fixed(alias: string, value: real, isFrom: bool): FromTo<Amount> {
    var amount := Amount("BRL", value, OtherOperation(""), OtherStatus(""), EmptyDirection, false);
    FromTo(alias, "", Some(amount), None, false, isFrom, None)
  }

  function Rest(alias: string, isFrom: bool): FromTo<Amount> {
    FromTo(alias, "", None, None, true, isFrom, None)
  }

  const A := "a#default"
  const B := "b#default"
  const C := "c#default"

  /** A value w, say 100, from a (v, say 30) and b (the rest) to c. */
  function Partly(v: real, w: real): Transaction {
    Transaction("BRL", w, true, [Fixed("a", v, true), Rest("b", true)], [Fixed("c", w, false)])
  }

  /** Any positive value, say 100, from a to c. */
  function Plain(v: real): Transaction {
    Transaction("BRL", v, true, [Fixed("a", v, true)], [Fixed("c", v, false)])
  }

  lemma Names()
    ensures A != B && B != C && A != C
    ensures AliasKey("a", "") == A && AliasKey("b", "") == B && AliasKey("c", "") == C
    ensures '#' !in "a" && '#' !in "b" && '#' !in "c" && "a" != "c" && "b" != "c"
  {
    assert A[0] == 'a' && B[0] == 'b' && C[0] == 'c';
    assert "a"[0] == 'a' && "b"[0] == 'b' && "c"[0] == 'c';
  }

  // ---------- short lists ----------

  lemma OneEntry(x: FromTo<Amount>, send: real, row: string)
    ensures Left([x], send) == send - Explicit(x, send)
    ensures Total([x], send) == Explicit(x, send) + (if x.remaining then Left([x], send) else 0.0)
    ensures RowTotal([x], send, row) ==
            if AliasKey(x.accountAlias, x.balanceKey) == row && LastValue([x], send).Some?
            then LastValue([x], send).value else 0.0
  {
    var picks := RowPicks([x], row);
    assert Init([x]) == [] && Last([x]) == x && Init(picks) == [];
    assert SumWhere([], send, []) == 0.0;
    assert Last(picks) == (AliasKey(x.accountAlias, x.balanceKey) == row);
  }

  lemma TwoEntries(x: FromTo<Amount>, y: FromTo<Amount>, send: real, row: string)
    ensures Left([x, y], send) == Left([x], send) - Explicit(y, send)
    ensures Total([x, y], send) ==
            Total([x], send) + Explicit(y, send) + (if y.remaining then Left([x, y], send) else 0.0)
    ensures RowTotal([x, y], send, row) ==
            RowTotal([x], send, row) +
            if AliasKey(y.accountAlias, y.balanceKey) == row && LastValue([x, y], send).Some?
            then LastValue([x, y], send).value else 0.0
  {
    assert Init([x, y]) == [x] && Init(RowPicks([x, y], row)) == RowPicks([x], row);
  }

  lemma FixedSide(alias: string, value: real, isFrom: bool, send: real, row: string)
    requires value > 0.0
    ensures var es := [Fixed(alias, value, isFrom)];
            && Total(es, send) == value && Left(es, send) == send - value
            && RowTotal(es, send, row) == (if AliasKey(alias, "") == row then value else 0.0)
            && Shortfall(es, send, row) == 0.0 && PositiveRemainder(es, send) == 0.0 && Tame(es, send)
  {
    OneEntry(Fixed(alias, value, isFrom), send, row);
  }

  lemma PartlySide(v: real, w: real, row: string)
    requires 0.0 < v < w
    ensures var es := Partly(v, w).from;
            && Total(es, w) == w && Left(es, w) == w - v
            && RowTotal(es, w, row) == (if row == A then v else if row == B then w - v else 0.0)
            && Shortfall(es, w, row) == (if row == B then w - v else 0.0)
            && PositiveRemainder(es, w) == w - v && Tame(es, w)
  {
    Names();
    var x, y, es := Fixed("a", v, true), Rest("b", true), Partly(v, w).from;
    FixedSide("a", v, true, w, row);
    TwoEntries(x, y, w, row);
    assert es[1].remaining && !es[0].remaining;
    assert HasRemaining(es);
    assert AliasKey(es[1].accountAlias, es[1].balanceKey) == B;
  }

  lemma PartlyCreatable(keys: set<string>, v: real, w: real)
    requires A in keys && B in keys && C in keys && 0.0 < v < w
    ensures Creatable(keys, Partly(v, w))
  {
    Names();
    PartlySide(v, w, A);
    FixedSide("c", w, false, w, A);
  }

  lemma PlainCreatable(keys: set<string>, v: real)
    requires A in keys && C in keys && v > 0.0
    ensures Creatable(keys, Plain(v))
  {
    Names();
    FixedSide("a", v, true, v, A);
    FixedSide("c", v, false, v, A);
  }

  // ---------- a positive remainder ----------

  lemma PartlyOnB(v: real, w: real)
    requires 0.0 < v < w
    ensures PostedOn(Partly(v, w), B) == Claim(0.0, 0.0) && ClaimOn(Partly(v, w), B) == Claim(w - v, 0.0)
    ensures Shortfall(Partly(v, w).from, w, B) == w - v
    ensures Imbalance(Direct(Partly(v, w))) == w - v
  {
    Names();
    PartlySide(v, w, B);
    FixedSide("c", w, false, w, B);
  }

  /** Three rows of these directions, whatever they hold, and nothing pending. */
  predicate Fresh(s: State, a: Direction, b: Direction, c: Direction) {
    && s.pending == map[] && s.rows.Keys == {A, B, C}
    && s.rows[A].direction == a && s.rows[B].direction == b && s.rows[C].direction == c
  }

  /** The hold posts nothing on b, so the commit takes the rest from what was never put on hold: with
      30 of 100, OnHold drops by 70. */
  lemma RemainderGoesNegative(s: State, v: real, w: real, id: string, routed: bool, routedLater: bool)
    requires Fresh(s, CreditDirection, CreditDirection, CreditDirection) && 0.0 < v < w
    ensures var t := Run(s, [Create(id, Partly(v, w), routed), Commit(id, routedLater)]);
            && B in t.rows && t.rows[B].available == s.rows[B].available
            && t.rows[B].onHold == s.rows[B].onHold - (w - v)
  {
    var hold, commit := Create(id, Partly(v, w), routed), Commit(id, routedLater);
    assert [hold] + [] + [commit] == [hold, commit];
    PartlyCreatable(s.rows.Keys, v, w);
    PartlyOnB(v, w);
    CommitLeaves(s, id, Partly(v, w), [], B, routed, commit);
  }

  /** Created directly it debits v and credits w: 30 and 100. */
  lemma RemainderIsCreated(s: State, v: real, w: real, id: string, routed: bool)
    requires Fresh(s, CreditDirection, CreditDirection, CreditDirection) && 0.0 < v < w
    ensures Position(After(s, Create(id, Direct(Partly(v, w)), routed)).rows) == Position(s.rows) + (w - v)
  {
    PartlyCreatable(s.rows.Keys, v, w);
    DirectCreatable(s.rows.Keys, Partly(v, w));
    PartlyOnB(v, w);
    DirectPosition(s, id, Direct(Partly(v, w)), routed);
  }

  // ---------- an ambiguity found late ----------

  /** A value from an account to itself. */
  function Circular(v: real): Transaction {
    Transaction("BRL", v, true, [Fixed("a", v, true)], [Fixed("a", v, false)])
  }

  lemma CircularShape(v: real)
    requires v > 0.0
    ensures WellFormed(Circular(v)) && TameTransaction(Circular(v)) && AmbiguousAt(Circular(v), 0)
    ensures Total(Circular(v).from, v) == v == Total(Circular(v).to, v)
  {
    Names();
    FixedSide("a", v, true, v, A);
    FixedSide("a", v, false, v, A);
  }

  /** The first validation accepts it, the second does not. */
  lemma AmbiguityFoundLate(v: real, status: Status)
    requires v > 0.0
    ensures Validate(Circular(v), status).Ok?
    ensures Validate(Prepare(Again(Circular(v), status)), status) == Err(TransactionAmbiguous)
  {
    CircularShape(v);
    RawAcceptedIff(Circular(v), status);
    SecondFindsAmbiguity(Circular(v), status);
  }

  // ---------- debit-direction rows ----------

  lemma PlainClaims(row: string, v: real)
    requires v > 0.0
    ensures ClaimOn(Plain(v), row) == Claim(if row == A then v else 0.0, if row == C then v else 0.0)
    ensures PostedOn(Plain(v), row) == ClaimOn(Plain(v), row)
  {
    Names();
    FixedSide("a", v, true, v, row);
    FixedSide("c", v, false, v, row);
  }

  /** A debit-direction source, held and committed without route validation, does not end up as the
      direct transaction leaves it. */
  lemma DebitSourceFails(s: State, v: real, id: string)
    requires Fresh(s, DebitDirection, CreditDirection, CreditDirection) && v > 0.0
    ensures !Agree(Run(s, [Create(id, Plain(v), false), Commit(id, false)]),
                   Run(s, [Create(id, Direct(Plain(v)), false)]), A)
  {
    var hold, commit, direct := Create(id, Plain(v), false), Commit(id, false), Create(id, Direct(Plain(v)), false);
    assert [hold] + [] + [commit] == [hold, commit] && [direct] + [] == [direct];
    PlainCreatable(s.rows.Keys, v);
    PlainClaims(A, v);
    DebitRowCommit(s, id, Plain(v), [], A, false, false, id);
  }

  /** A debit-direction destination is not restored by a cancel, routed or not. */
  lemma DebitDestinationFails(s: State, v: real, id: string, routed: bool)
    requires Fresh(s, CreditDirection, CreditDirection, DebitDirection) && v > 0.0
    ensures !Agree(Run(s, [Create(id, Plain(v), routed), Cancel(id, routed)]), s, C)
  {
    var hold, cancel := Create(id, Plain(v), routed), Cancel(id, routed);
    assert [hold] + [] + [cancel] == [hold, cancel];
    PlainCreatable(s.rows.Keys, v);
    PlainClaims(C, v);
    DebitRowCancel(s, id, Plain(v), [], C, routed, routed);
  }

  /** Holding from that source without route validation leaks twice the value. */
  lemma DebitSourceLeaks(s: State, v: real, id: string)
    requires Fresh(s, DebitDirection, CreditDirection, CreditDirection) && v > 0.0
    ensures Position(After(s, Create(id, Plain(v), false)).rows) == Position(s.rows) + 2.0 * v
  {
    PlainCreatable(s.rows.Keys, v);
    PlainClaims(A, v);
    Names();
    HoldPosition(s, id, Plain(v), false, A);
  }
}
