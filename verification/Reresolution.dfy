/** What the handlers resolve. Resolving writes the remainder back into the entries, and creating a
    transaction resolves its entries twice: the second result is posted, and the entries it leaves
    behind are stored, to be resolved once more on commit or cancel. */
module Reresolution {
  import opened TransactionTypes
  import opened Aliases
  import opened Sums
  import opened Resolver
  import opened SendValidation

  // ---------- entries that hold a remainder written back ----------

  predicate HasRemaining(es: Entries) {
    exists i :: 0 <= i < |es| && es[i].remaining
  }

  predicate AtMostOneRemaining(es: Entries) {
    forall i, j :: 0 <= i < j < |es| ==> !(es[i].remaining && es[j].remaining)
  }

  /** What the written-back amounts take out of the remainder. */
  function Extra(es: Entries, l: real): real {
    if es == [] then 0.0 else Extra(Init(es), l) + (if Last(es).remaining then l else 0.0)
  }

  /** What the `remaining` entries therefore miss. */
  function Loss(es: Entries, l: real): real {
    if es == [] then 0.0 else Loss(Init(es), l) + (if Last(es).remaining then Extra(es, l) else 0.0)
  }

  /** The part of it that falls on selected entries. */
  function LossOn(es: Entries, l: real, selected: seq<bool>): real
    requires |selected| == |es|
  {
    if es == [] then 0.0
    else LossOn(Init(es), l, Init(selected)) + (if Last(es).remaining && Last(selected) then Extra(es, l) else 0.0)
  }

  lemma FilledInit(es: Entries, a: Amount)
    requires es != []
    ensures Init(Filled(es, a)) == Filled(Init(es), a)
    ensures Last(Filled(es, a)) == if Last(es).remaining then Last(es).(amount := Some(a)) else Last(es)
  {
  }

  lemma FilledExplicit(e: FromTo<Amount>, a: Amount, send: real)
    requires OneKind(e) && e.remaining && a.value > 0.0
    ensures Explicit(e, send) == 0.0 && Explicit(e.(amount := Some(a)), send) == a.value
  {
  }

  lemma {:induction false} FilledTotals(es: Entries, a: Amount, send: real)
    requires OneKindSide(es) && a.value > 0.0
    ensures Left(Filled(es, a), send) == Left(es, send) - Extra(es, a.value)
    ensures Total(Filled(es, a), send) == Total(es, send) + Extra(es, a.value) - Loss(es, a.value)
  {
    if es != [] {
      FilledInit(es, a);
      FilledTotals(Init(es), a, send);
      if Last(es).remaining {
        FilledExplicit(Last(es), a, send);
      }
    }
  }

  lemma {:induction false} FilledSums(es: Entries, a: Amount, send: real, selected: seq<bool>)
    requires OneKindSide(es) && a.value > 0.0 && |selected| == |es|
    ensures SumWhere(Filled(es, a), send, selected) == SumWhere(es, send, selected) - LossOn(es, a.value, selected)
  {
    if es != [] {
      FilledInit(es, a);
      FilledSums(Init(es), a, send, Init(selected));
      FilledTotals(es, a, send);
    }
  }

  /** A remainder that is not positive is no amount: nothing changes. */
  lemma FilledTwins(es: Entries, a: Amount)
    requires OneKindSide(es) && (a.value <= 0.0 || !HasRemaining(es))
    ensures Twins(Filled(es, a), es)
  {
    forall i | 0 <= i < |es| ensures HasAmount(Filled(es, a)[i]) == HasAmount(es[i]) {
      assert OneKind(es[i]);
    }
  }

  lemma {:induction false} NoExtra(es: Entries, l: real)
    requires l > 0.0
    ensures Extra(es, l) >= 0.0 && (Extra(es, l) == 0.0 <==> !HasRemaining(es))
  {
    if es != [] {
      NoExtra(Init(es), l);
      HasRemainingStep(es);
    }
  }

  lemma HasRemainingStep(es: Entries)
    requires es != []
    ensures HasRemaining(es) <==> HasRemaining(Init(es)) || Last(es).remaining
    ensures AtMostOneRemaining(es) <==>
            AtMostOneRemaining(Init(es)) && !(HasRemaining(Init(es)) && Last(es).remaining)
  {
    assert forall i :: 0 <= i < |es| - 1 ==> Init(es)[i] == es[i];
    if HasRemaining(Init(es)) {
      var i :| 0 <= i < |Init(es)| && Init(es)[i].remaining;
      assert es[i].remaining;
    }
  }

  /** The losses outweigh what was taken exactly when two entries share the remainder. */
  lemma {:induction false} LossIff(es: Entries, l: real)
    requires l > 0.0
    ensures Loss(es, l) >= Extra(es, l)
    ensures Loss(es, l) == Extra(es, l) <==> AtMostOneRemaining(es)
    ensures !HasRemaining(es) ==> Loss(es, l) == 0.0
    ensures HasRemaining(es) && AtMostOneRemaining(es) ==> Extra(es, l) == l
  {
    if es != [] {
      LossIff(Init(es), l);
      NoExtra(Init(es), l);
      HasRemainingStep(es);
    }
  }

  predicate RemainingPicked(es: Entries, selected: seq<bool>)
    requires |selected| == |es|
  {
    exists i :: 0 <= i < |es| && es[i].remaining && selected[i]
  }

  lemma PickedStep(es: Entries, selected: seq<bool>)
    requires es != [] && |selected| == |es|
    ensures RemainingPicked(es, selected) <==>
            RemainingPicked(Init(es), Init(selected)) || (Last(es).remaining && Last(selected))
    ensures RemainingPicked(es, selected) ==> HasRemaining(es)
  {
    if RemainingPicked(Init(es), Init(selected)) {
      var i :| 0 <= i < |Init(es)| && Init(es)[i].remaining && Init(selected)[i];
      assert es[i].remaining && selected[i];
    }
    if i :| 0 <= i < |es| - 1 && es[i].remaining && selected[i] {
      assert Init(es)[i].remaining && Init(selected)[i];
    }
  }

  /** With one `remaining` entry its remainder is lost where that entry is. */
  lemma {:induction false} LossWhere(es: Entries, l: real, selected: seq<bool>)
    requires l > 0.0 && |selected| == |es| && AtMostOneRemaining(es)
    ensures LossOn(es, l, selected) == if RemainingPicked(es, selected) then l else 0.0
  {
    if es != [] {
      HasRemainingStep(es);
      PickedStep(es, selected);
      LossIff(es, l);
      LossWhere(Init(es), l, Init(selected));
    }
  }

  // ---------- resolving again ----------

  /** No positive remainder is shared by two entries. */
  predicate Tame(es: Entries, send: real) {
    Left(es, send) <= 0.0 || AtMostOneRemaining(es)
  }

  /** The second resolution reaches the same total exactly on tame sides. */
  lemma SecondTotal(es: Entries, c: Context)
    requires OneKindSide(es)
    ensures Total(Rewritten(es, c), c.value) == Total(es, c.value) <==> Tame(es, c.value)
  {
    var a := Record(es, c);
    RecordIs(es, c);
    if a.value <= 0.0 {
      FilledTwins(es, a);
      TwinTotals(Filled(es, a), es, c.value);
    } else {
      FilledTotals(es, a, c.value);
      LossIff(es, a.value);
    }
  }

  /** And leaves no positive remainder. */
  lemma SecondLeft(es: Entries, c: Context)
    requires OneKindSide(es) && Tame(es, c.value)
    ensures Left(Rewritten(es, c), c.value) <= 0.0 || !HasRemaining(es)
  {
    var a := Record(es, c);
    RecordIs(es, c);
    if a.value <= 0.0 {
      FilledTwins(es, a);
      TwinTotals(Filled(es, a), es, c.value);
    } else {
      FilledTotals(es, a, c.value);
      LossIff(es, a.value);
    }
  }

  /** So after two resolutions the entries resolve as they did at first. */
  lemma TwiceTwins(es: Entries, c: Context)
    requires OneKindSide(es) && Tame(es, c.value)
    ensures Twins(Rewritten(Rewritten(es, c), c), es)
    ensures OneKindSide(Rewritten(Rewritten(es, c), c))
  {
    var again := Rewritten(es, c);
    var twice := Rewritten(again, c);
    SecondLeft(es, c);
    RecordIs(again, c);
    forall i | 0 <= i < |es|
      ensures twice[i].share == es[i].share && twice[i].remaining == es[i].remaining
      ensures HasAmount(twice[i]) == HasAmount(es[i])
      ensures HasAmount(es[i]) ==> twice[i].amount == es[i].amount
      ensures OneKind(twice[i])
    {
      assert OneKind(es[i]);
      if es[i].remaining {
        assert HasRemaining(es);
      }
    }
  }

  /** The positive remainder of a side. */
  function PositiveRemainder(es: Entries, send: real): real {
    if HasRemaining(es) && Left(es, send) > 0.0 then Left(es, send) else 0.0
  }

  predicate RemainingOn(es: Entries, row: string) {
    exists i :: 0 <= i < |es| && es[i].remaining && AliasKey(es[i].accountAlias, es[i].balanceKey) == row
  }

  /** The part of it that belongs to a row. */
  function Shortfall(es: Entries, send: real, row: string): (r: real)
    ensures r >= 0.0
  {
    if RemainingOn(es, row) && Left(es, send) > 0.0 then Left(es, send) else 0.0
  }

  lemma RewrittenPicks(es: Entries, c: Context, row: string)
    ensures RowPicks(Rewritten(es, c), row) == RowPicks(es, row)
  {
  }

  lemma PickedIsOn(es: Entries, row: string)
    ensures RemainingPicked(es, RowPicks(es, row)) <==> RemainingOn(es, row)
  {
    if i :| 0 <= i < |es| && es[i].remaining && AliasKey(es[i].accountAlias, es[i].balanceKey) == row {
      assert RowPicks(es, row)[i];
    }
    if i :| 0 <= i < |es| && es[i].remaining && RowPicks(es, row)[i] {
      assert AliasKey(es[i].accountAlias, es[i].balanceKey) == row;
    }
  }

  /** Resolved again, a side is short of its positive remainder on the row of that entry, and of
      nothing anywhere else. */
  lemma SecondRowTotal(es: Entries, c: Context, row: string)
    requires OneKindSide(es) && Tame(es, c.value)
    ensures RowTotal(Rewritten(es, c), c.value, row) == RowTotal(es, c.value, row) - Shortfall(es, c.value, row)
  {
    var a, picks := Record(es, c), RowPicks(es, row);
    RecordIs(es, c);
    RewrittenPicks(es, c, row);
    if a.value <= 0.0 {
      FilledTwins(es, a);
      TwinSums(Filled(es, a), es, c.value, picks);
    } else {
      FilledSums(es, a, c.value, picks);
      LossWhere(es, a.value, picks);
      PickedIsOn(es, row);
    }
  }

  /** Resolved a third time it is whole again. */
  lemma ThirdRowTotal(es: Entries, c: Context, row: string)
    requires OneKindSide(es) && Tame(es, c.value)
    ensures RowTotal(Rewritten(Rewritten(es, c), c), c.value, row) == RowTotal(es, c.value, row)
  {
    var twice := Rewritten(Rewritten(es, c), c);
    RewrittenPicks(es, c, row);
    RewrittenPicks(Rewritten(es, c), c, row);
    TwiceTwins(es, c);
    TwinSums(twice, es, c.value, RowPicks(es, row));
  }

  /** Of an accepted side, in whole maps: the second resolution is accepted exactly when the side is
      tame; its map then falls short of the send value by the positive remainder, and the map of the
      third does not. */
  lemma ResolvingTwiceLosesRemainder(es: Entries, c: Context)
    requires DistinctAliases(es) && OneKindSide(es) && Total(es, c.value) == c.value
    ensures Total(Rewritten(es, c), c.value) == c.value <==> Tame(es, c.value)
    ensures Tame(es, c.value) ==>
      && Sum(ValuesWhere(Resolved(Rewritten(es, c), c), Anywhere())) == c.value - PositiveRemainder(es, c.value)
      && Sum(ValuesWhere(Resolved(Rewritten(Rewritten(es, c), c), c), Anywhere())) == c.value
  {
    SecondTotal(es, c);
    if Tame(es, c.value) {
      SecondMap(es, c);
      var twice := Rewritten(Rewritten(es, c), c);
      TwiceTwins(es, c);
      TwinTotals(twice, es, c.value);
      AcceptedMapBalances(twice, c);
    }
  }

  lemma SecondMap(es: Entries, c: Context)
    requires DistinctAliases(es) && OneKindSide(es) && Total(es, c.value) == c.value && Tame(es, c.value)
    ensures Sum(ValuesWhere(Resolved(Rewritten(es, c), c), Anywhere())) == c.value - PositiveRemainder(es, c.value)
  {
    var a, again, all := Record(es, c), Rewritten(es, c), Picks(es, Anywhere());
    RecordIs(es, c);
    assert Picks(again, Anywhere()) == all;
    MapSumIsListSum(again, c, Anywhere());
    TotalIsResolvedSum(es, c.value);
    if a.value <= 0.0 {
      FilledTwins(es, a);
      TwinSums(again, es, c.value, all);
    } else {
      FilledSums(es, a, c.value, all);
      LossWhere(es, a.value, all);
      assert RemainingPicked(es, all) <==> HasRemaining(es);
    }
  }

  // ---------- whole transactions ----------

  /** The transaction as one validation leaves it. */
  function Again(tx: Transaction, status: Status): Transaction {
    var c := ContextOf(tx, status);
    tx.(from := Rewritten(tx.from, c), to := Rewritten(tx.to, c))
  }

  predicate TameTransaction(tx: Transaction) {
    Tame(tx.from, tx.value) && Tame(tx.to, tx.value)
  }

  lemma {:induction false} RecordOfConcat(es: Entries, c: Context, i: nat)
    requires i <= |es|
    ensures Record(ConcatAll(es)[..i], c) == Record(es[..i], c)
  {
    if i > 0 {
      RecordOfConcat(es, c, i - 1);
      var a, b := ConcatAll(es)[..i], es[..i];
      assert Init(a) == ConcatAll(es)[..i - 1] && Init(b) == es[..i - 1];
      assert Last(a) == ConcatEntry(es[i - 1], i - 1) && Last(b) == es[i - 1];
    } else {
      assert ConcatAll(es)[..0] == [] && es[..0] == [];
    }
  }

  lemma ConcatRewritten(es: Entries, c: Context)
    ensures ConcatAll(Rewritten(es, c)) == Rewritten(ConcatAll(es), c)
  {
    RecordOfConcat(es, c, |es|);
    assert ConcatAll(es)[..|es|] == ConcatAll(es) && es[..|es|] == es;
  }

  /** Resolving commutes with the composite keys, so it may be read off the raw entries. */
  lemma PrepareAgain(tx: Transaction, status: Status)
    ensures Prepare(Again(tx, status)) == Again(Prepare(tx), status)
  {
    var c := ContextOf(tx, status);
    ConcatRewritten(tx.from, c);
    ConcatRewritten(tx.to, c);
  }

  /** The aliases put back, as before a transaction is stored. */
  function Restore(tx: Transaction): Transaction {
    tx.(from := SplitAll(tx.from), to := SplitAll(tx.to))
  }

  lemma RestorePrepare(tx: Transaction)
    requires Shaped(tx)
    ensures Restore(Prepare(tx)) == tx
  {
    SplitUndoesConcat(tx.from);
    SplitUndoesConcat(tx.to);
  }

  /** What the create handler stores: the raw input resolved, given composite keys, resolved again,
      and the aliases put back. */
  lemma StoredBody(tx: Transaction, status: Status)
    requires Shaped(tx)
    ensures Shaped(Again(Again(tx, status), status))
    ensures Restore(Again(Prepare(Again(tx, status)), status)) == Again(Again(tx, status), status)
  {
    PrepareAgain(Again(tx, status), status);
    AgainShaped(tx, status);
    AgainShaped(Again(tx, status), status);
    RestorePrepare(Again(Again(tx, status), status));
  }

  lemma AgainShaped(tx: Transaction, status: Status)
    requires Shaped(tx)
    ensures Shaped(Again(tx, status))
  {
  }

  /** Rewriting does not change which entries are ambiguous. */
  lemma AgainAmbiguous(tx: Transaction, status: Status, i: nat)
    ensures AmbiguousAt(Again(tx, status), i) == AmbiguousAt(tx, i)
  {
  }

  /** For input whose first validation, on raw aliases, accepted it: the second, on composite keys,
      accepts it exactly when both sides are tame and no index is ambiguous. */
  lemma SecondAccepted(tx: Transaction, status: Status)
    requires WellFormed(tx) && Validate(tx, status).Ok?
    ensures Validate(Prepare(Again(tx, status)), status).Ok? <==>
            TameTransaction(tx) && !exists i :: AmbiguousAt(tx, i)
  {
    var c := ContextOf(tx, status);
    RawAcceptedIff(tx, status);
    AgainShaped(tx, status);
    AcceptedIff(Again(tx, status), status);
    assert forall i :: AmbiguousAt(Again(tx, status), i) == AmbiguousAt(tx, i) by {
      forall i: nat ensures AmbiguousAt(Again(tx, status), i) == AmbiguousAt(tx, i) {
        AgainAmbiguous(tx, status, i);
      }
    }
    SecondTotal(tx.from, c);
    SecondTotal(tx.to, c);
  }

  /** An ambiguity is reported by the second validation, whatever the first made of it. */
  lemma SecondFindsAmbiguity(tx: Transaction, status: Status)
    requires Shaped(tx)
    ensures Validate(Prepare(Again(tx, status)), status) == Err(TransactionAmbiguous) <==>
            exists i :: AmbiguousAt(tx, i)
  {
    AgainShaped(tx, status);
    AmbiguousIff(Again(tx, status), status);
    forall i: nat ensures AmbiguousAt(Again(tx, status), i) == AmbiguousAt(tx, i) {
      AgainAmbiguous(tx, status, i);
    }
  }

  /** With non-negative contributions that sum to at most the send value, an accepted side is tame. */
  lemma AcceptedIsTame(es: Entries, send: real)
    requires Monotone(es, send) && Left(es, send) >= 0.0 && Total(es, send) == send
    ensures Tame(es, send)
  {
    if !AtMostOneRemaining(es) {
      var f := FindFirst(es);
      AcceptedIffQuiet(es, send, f);
      var j :| f < j < |es| && es[j].remaining;
      assert QuietAt(es, send, j);
      assert Left(es, send) <= Left(es[..j + 1], send) by { LeftDecreases(es, send, j + 1); }
    }
  }

  lemma FindFirst(es: Entries) returns (f: nat)
    requires !AtMostOneRemaining(es)
    ensures FirstRemaining(es, f) && exists j :: f < j < |es| && es[j].remaining
  {
    var i, j :| 0 <= i < j < |es| && es[i].remaining && es[j].remaining;
    f := 0;
    while !es[f].remaining
      invariant f <= i && forall k :: 0 <= k < f ==> !es[k].remaining
      decreases i - f
    {
      f := f + 1;
    }
  }
}
