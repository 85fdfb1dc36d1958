/** What a share is worth (pkg/mtransaction/validations.go), without the formula: shares are additive,
    the whole is the send value, and a share of a share is the one taken of the other. */
module Shares {
  import opened TransactionTypes
  import opened Resolver

  /** A plain share of p percent. */
  function Plain(p: int): Share {
    Share(p, 0)
  }

  lemma WholeIsSend(send: real)
    ensures ShareValue(send, Plain(100)) == send && ShareValue(send, Plain(0)) == 0.0
  {
  }

  lemma SharesAddUp(send: real, p: int, p': int, q: int)
    ensures ShareValue(send, Share(p + p', q)) == ShareValue(send, Share(p, q)) + ShareValue(send, Share(p', q))
  {
    var k := (if q == 0 then 100 else q) as real / 100.0;
    var a, b := p as real / 100.0, p' as real / 100.0;
    assert (p + p') as real / 100.0 == a + b;
    assert send * (a + b) * k == send * a * k + send * b * k;
  }

  lemma SharesScale(send: real, send': real, s: Share)
    ensures ShareValue(send + send', s) == ShareValue(send, s) + ShareValue(send', s)
  {
    var k := (if s.percentageOfPercentage == 0 then 100 else s.percentageOfPercentage) as real / 100.0;
    var a := s.percentage as real / 100.0;
    assert (send + send') * a * k == send * a * k + send' * a * k;
  }

  /** A missing second percentage means all of the first. */
  lemma MissingIsWhole(send: real, p: int)
    ensures ShareValue(send, Share(p, 0)) == ShareValue(send, Share(p, 100))
  {
  }

  /** The share p of q is the q percent share of the p percent share. */
  lemma ShareOfShare(send: real, p: int, q: int)
    requires q != 0
    ensures ShareValue(send, Share(p, q)) == ShareValue(ShareValue(send, Plain(p)), Plain(q))
  {
  }

  /** A hundred shares of one percent. */
  lemma PercentIsLinear(send: real, p: int)
    ensures 100.0 * ShareValue(send, Plain(p)) == p as real * send
  {
  }

  // ---------- sides of plain shares ----------

  predicate IsPlainShare(e: FromTo<Amount>) {
    e.share.Some? && e.share.value.percentageOfPercentage == 0 && e.amount.None? && !e.remaining
  }

  predicate PlainSide(es: Entries) {
    forall i :: 0 <= i < |es| ==> IsPlainShare(es[i])
  }

  function Percentages(es: Entries): int
    requires PlainSide(es)
  {
    if es == [] then 0 else Percentages(Init(es)) + Last(es).share.value.percentage
  }

  /** A side of plain shares is worth the share of its percentages together. */
  lemma {:induction false} PlainTotal(es: Entries, send: real)
    requires PlainSide(es)
    ensures Total(es, send) == ShareValue(send, Plain(Percentages(es)))
  {
    if es == [] {
      WholeIsSend(send);
    } else {
      var p := Last(es).share.value.percentage;
      assert IsPlainShare(Last(es)) && Last(es).share.value == Plain(p);
      PlainTotal(Init(es), send);
      SharesAddUp(send, Percentages(Init(es)), p, 0);
      WholeIsSend(send);
    }
  }

  /** It balances exactly when its percentages sum to 100. */
  lemma PlainSideBalances(es: Entries, send: real)
    requires PlainSide(es) && send != 0.0
    ensures Total(es, send) == send <==> Percentages(es) == 100
  {
    var p := Percentages(es);
    PlainTotal(es, send);
    PercentIsLinear(send, p);
    OnlyHundred(send, p as real);
  }

  lemma OnlyHundred(send: real, p: real)
    requires send != 0.0
    ensures p * send == 100.0 * send <==> p == 100.0
  {
    if p * send == 100.0 * send {
      assert (p - 100.0) * send == 0.0;
    }
  }

  /** A share of nothing leaves no trace. */
  lemma ZeroShareIsAbsent(es: Entries, c: Context, i: nat, q: int)
    requires DistinctAliases(es) && i < |es|
    requires es[i].share == Some(Share(0, q)) && es[i].amount.None? && !es[i].remaining
    ensures es[i].accountAlias !in Resolved(es, c)
  {
    ResolvedKeyIff(es, c, es[i].accountAlias);
  }
}
