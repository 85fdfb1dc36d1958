/** Alias keys of pkg/mtransaction/transaction.go: an entry's alias is rewritten in place to
    `index#alias#balanceKey` before amounts are resolved, and restored afterwards. */
module Aliases {
  import opened TransactionTypes

  const DEFAULT_BALANCE_KEY := "default"

  function DefaultKey(balanceKey: string): string {
    if balanceKey == "" then DEFAULT_BALANCE_KEY else balanceKey
  }

  function AliasKey(alias: string, balanceKey: string): string {
    alias + "#" + DefaultKey(balanceKey)
  }

  // ---------- decimal indices ----------

  predicate IsDigit(c: char) {
    '0' <= c <= '9'
  }

  function Digit(n: nat): char
    requires n < 10
  {
    '0' + n as char
  }

  /** strconv.Itoa on the non-negative loop indices. */
  function Itoa(n: nat): (s: string)
    ensures |s| > 0
    ensures forall i :: 0 <= i < |s| ==> IsDigit(s[i])
  {
    if n < 10 then [Digit(n)] else Itoa(n / 10) + [Digit(n % 10)]
  }

  function Atoi(s: string): int {
    if s == "" then 0 else 10 * Atoi(s[..|s| - 1]) + (s[|s| - 1] as int - '0' as int)
  }

  lemma {:induction false} AtoiItoa(n: nat)
    ensures Atoi(Itoa(n)) == n
  {
    if n >= 10 {
      AtoiItoa(n / 10);
      assert Itoa(n)[..|Itoa(n)| - 1] == Itoa(n / 10);
    } else {
      assert Itoa(n)[..0] == "";
    }
  }

  // ---------- splitting at '#' ----------

  /** strings.Index(s, "#"). */
  function IndexHash(s: string): (i: int)
    ensures -1 <= i < |s|
    ensures i == -1 <==> '#' !in s
    ensures i >= 0 ==> s[i] == '#'
    ensures forall j :: 0 <= j < i ==> s[j] != '#'
  {
    if s == "" then -1
    else if s[0] == '#' then 0
    else
      var i := IndexHash(s[1..]);
      assert s == [s[0]] + s[1..];
      if i == -1 then -1 else i + 1
  }

  lemma IndexHashAfter(prefix: string, rest: string)
    requires '#' !in prefix
    ensures IndexHash(prefix + "#" + rest) == |prefix|
  {
    var s := prefix + "#" + rest;
    assert s[|prefix|] == '#';
    assert forall j :: 0 <= j < |prefix| ==> s[j] == prefix[j];
  }

  function FirstSegment(s: string): string {
    var i := IndexHash(s);
    if i == -1 then s else s[..i]
  }

  /** strings.Split(s, "#")[1] when s has a '#', s itself otherwise. */
  function SplitAlias(s: string): string {
    var i := IndexHash(s);
    if i == -1 then s else FirstSegment(s[i + 1..])
  }

  function SplitAliasWithKey(s: string): string {
    var i := IndexHash(s);
    if i == -1 then s else s[i + 1..]
  }

  /** Without a '#' nothing is cut off; with one, the first segment is, and the alias is the second. */
  lemma SplitParts(head: string, rest: string)
    requires '#' !in head
    ensures SplitAlias(head) == head && SplitAliasWithKey(head) == head
    ensures SplitAliasWithKey(head + "#" + rest) == rest
    ensures SplitAlias(head + "#" + rest) == FirstSegment(rest)
    ensures FirstSegment(head) == head && FirstSegment(head + "#" + rest) == head
  {
    var s := head + "#" + rest;
    IndexHashAfter(head, rest);
    assert s[|head| + 1..] == rest && s[..|head|] == head;
  }

  /** isConcatedAlias: the scan that stops at the first '#' or non-digit. */
  predicate IsConcated(s: string) {
    |s| >= 2 && ScanDigits(s, 0)
  }

  predicate ScanDigits(s: string, i: nat)
    requires i <= |s|
    decreases |s| - i
  {
    i < |s| && if s[i] == '#' then i > 0 else IsDigit(s[i]) && ScanDigits(s, i + 1)
  }

  /** What the scan decides: a non-empty run of digits, then '#'. */
  lemma {:induction false} ScanDecides(s: string, i: nat)
    requires i <= |s|
    requires forall j :: 0 <= j < i ==> IsDigit(s[j])
    ensures ScanDigits(s, i) <==>
            IndexHash(s) > 0 && forall j :: 0 <= j < IndexHash(s) ==> IsDigit(s[j])
    decreases |s| - i
  {
    if i < |s| && IsDigit(s[i]) {
      ScanDecides(s, i + 1);
    }
  }

  lemma ConcatedIff(s: string)
    ensures IsConcated(s) <==>
            IndexHash(s) > 0 && forall j :: 0 <= j < IndexHash(s) ==> IsDigit(s[j])
  {
    ScanDecides(s, 0);
  }

  // ---------- composite keys ----------

  function ConcatKey(i: nat, alias: string, balanceKey: string): string {
    Itoa(i) + "#" + alias + "#" + DefaultKey(balanceKey)
  }

  lemma ConcatKeyHash(i: nat, alias: string, balanceKey: string)
    ensures var s := ConcatKey(i, alias, balanceKey);
            && IndexHash(s) == |Itoa(i)| && s[..|Itoa(i)|] == Itoa(i)
            && s[|Itoa(i)| + 1..] == AliasKey(alias, balanceKey)
  {
    var digits, tail := Itoa(i), AliasKey(alias, balanceKey);
    assert ConcatKey(i, alias, balanceKey) == digits + "#" + tail;
    assert '#' !in digits;
    IndexHashAfter(digits, tail);
  }

  lemma AliasKeyHead(alias: string, balanceKey: string)
    requires '#' !in alias
    ensures IndexHash(AliasKey(alias, balanceKey)) == |alias|
    ensures FirstSegment(AliasKey(alias, balanceKey)) == alias
  {
    IndexHashAfter(alias, DefaultKey(balanceKey));
    assert AliasKey(alias, balanceKey)[..|alias|] == alias;
  }

  /** Everything the engine reads back out of a composite key. */
  lemma ConcatKeyParts(i: nat, alias: string, balanceKey: string)
    ensures IsConcated(ConcatKey(i, alias, balanceKey))
    ensures SplitAliasWithKey(ConcatKey(i, alias, balanceKey)) == AliasKey(alias, balanceKey)
    ensures SplitAlias(ConcatKey(i, alias, balanceKey)) == FirstSegment(AliasKey(alias, balanceKey))
    ensures '#' !in alias ==> SplitAlias(ConcatKey(i, alias, balanceKey)) == alias
    ensures IndexHash(ConcatKey(i, alias, balanceKey)) == |Itoa(i)|
  {
    var s := ConcatKey(i, alias, balanceKey);
    ConcatKeyHash(i, alias, balanceKey);
    assert IsConcated(s) by {
      ConcatedIff(s);
      assert forall j :: 0 <= j < |Itoa(i)| ==> s[j] == Itoa(i)[j];
    }
    if '#' !in alias {
      AliasKeyHead(alias, balanceKey);
    }
  }

  /** `index#alias#key` is injective for '#'-free aliases: no two legs share a key. */
  lemma ConcatKeyInjective(i: nat, a: string, k: string, j: nat, b: string, l: string)
    requires '#' !in a && '#' !in b
    ensures ConcatKey(i, a, k) == ConcatKey(j, b, l) <==>
            i == j && a == b && DefaultKey(k) == DefaultKey(l)
  {
    if ConcatKey(i, a, k) == ConcatKey(j, b, l) {
      ConcatKeyHash(i, a, k);
      ConcatKeyHash(j, b, l);
      AtoiItoa(i);
      AtoiItoa(j);
      AliasKeyInjective(a, k, b, l);
    }
  }

  lemma AliasKeyInjective(a: string, k: string, b: string, l: string)
    requires '#' !in a && '#' !in b
    ensures AliasKey(a, k) == AliasKey(b, l) <==> a == b && DefaultKey(k) == DefaultKey(l)
  {
    if AliasKey(a, k) == AliasKey(b, l) {
      IndexHashAfter(a, DefaultKey(k));
      IndexHashAfter(b, DefaultKey(l));
      assert AliasKey(a, k)[..|a|] == a && AliasKey(b, l)[..|b|] == b;
      assert AliasKey(a, k)[|a| + 1..] == DefaultKey(k) && AliasKey(b, l)[|b| + 1..] == DefaultKey(l);
    }
  }

  // ---------- the in-place rewrites ----------

  function ConcatEntry<A>(e: FromTo<A>, i: nat): FromTo<A> {
    if IsConcated(e.accountAlias) then e
    else e.(accountAlias := ConcatKey(i, e.accountAlias, e.balanceKey))
  }

  function SplitEntry<A>(e: FromTo<A>): FromTo<A> {
    if IsConcated(e.accountAlias) then e.(accountAlias := SplitAlias(e.accountAlias)) else e
  }

  function ConcatAll<A>(es: seq<FromTo<A>>): (r: seq<FromTo<A>>)
    ensures |r| == |es|
  {
    seq(|es|, i requires 0 <= i < |es| => ConcatEntry(es[i], i))
  }

  function SplitAll<A>(es: seq<FromTo<A>>): (r: seq<FromTo<A>>)
    ensures |r| == |es|
  {
    seq(|es|, i requires 0 <= i < |es| => SplitEntry(es[i]))
  }

  method MutateConcatAliases<A>(entries: array<FromTo<A>>) returns (result: seq<FromTo<A>>)
    modifies entries
    ensures entries[..] == ConcatAll(old(entries[..]))
    ensures result == entries[..]
  {
    result := [];
    for i := 0 to entries.Length
      invariant entries[..i] == ConcatAll(old(entries[..]))[..i]
      invariant entries[i..] == old(entries[i..])
      invariant result == entries[..i]
    {
      assert entries[i] == old(entries[..])[i];
      if !IsConcated(entries[i].accountAlias) {
        entries[i] := entries[i].(accountAlias :=
          ConcatKey(i, entries[i].accountAlias, entries[i].balanceKey));
      }
      result := result + [entries[i]];
    }
  }

  method MutateSplitAliases<A>(entries: array<FromTo<A>>) returns (result: seq<FromTo<A>>)
    modifies entries
    ensures entries[..] == SplitAll(old(entries[..]))
    ensures result == entries[..]
  {
    result := [];
    for i := 0 to entries.Length
      invariant entries[..i] == SplitAll(old(entries[..]))[..i]
      invariant entries[i..] == old(entries[i..])
      invariant result == entries[..i]
    {
      assert entries[i] == old(entries[..])[i];
      if IsConcated(entries[i].accountAlias) {
        entries[i] := entries[i].(accountAlias := SplitAlias(entries[i].accountAlias));
      }
      result := result + [entries[i]];
    }
  }

  // ---------- laws of the rewrites ----------

  /** Both rewrites are idempotent on every list, whatever its aliases look like. */
  lemma RewritesIdempotent<A>(es: seq<FromTo<A>>)
    ensures ConcatAll(ConcatAll(es)) == ConcatAll(es)
    ensures SplitAll(SplitAll(es)) == SplitAll(es)
  {
    forall i | 0 <= i < |es|
      ensures ConcatEntry(ConcatEntry(es[i], i), i) == ConcatEntry(es[i], i)
      ensures SplitEntry(SplitEntry(es[i])) == SplitEntry(es[i])
    {
      ConcatKeyParts(i, es[i].accountAlias, es[i].balanceKey);
      ConcatedIff(SplitAlias(es[i].accountAlias));
    }
  }

  /** Splitting undoes concatenating exactly on the lists whose aliases are '#'-free. */
  lemma SplitUndoesConcat<A>(es: seq<FromTo<A>>)
    ensures SplitAll(ConcatAll(es)) == es <==>
            forall i :: 0 <= i < |es| ==> '#' !in es[i].accountAlias
  {
    forall i | 0 <= i < |es|
      ensures SplitEntry(ConcatEntry(es[i], i)) == es[i] <==> '#' !in es[i].accountAlias
    {
      var e := es[i];
      ConcatedIff(e.accountAlias);
      ConcatKeyParts(i, e.accountAlias, e.balanceKey);
    }
    if SplitAll(ConcatAll(es)) == es {
      forall i | 0 <= i < |es| ensures '#' !in es[i].accountAlias {
        assert SplitAll(ConcatAll(es))[i] == es[i];
      }
    }
  }

  /** An entry is ready for resolution when it is raw, or already carries its own index. */
  predicate Indexed<A>(e: FromTo<A>, i: nat) {
    '#' !in e.accountAlias || OwnKey(e, i, SplitAlias(e.accountAlias))
  }

  predicate OwnKey<A>(e: FromTo<A>, i: nat, alias: string) {
    '#' !in alias && e.accountAlias == ConcatKey(i, alias, e.balanceKey)
  }

  /** Resulting keys are pairwise distinct, also when only part of the list was rewritten before. */
  lemma ConcatDistinct<A>(es: seq<FromTo<A>>, i: nat, j: nat)
    requires i < j < |es| && Indexed(es[i], i) && Indexed(es[j], j)
    ensures ConcatAll(es)[i].accountAlias != ConcatAll(es)[j].accountAlias
  {
    ConcatedIff(es[i].accountAlias);
    ConcatedIff(es[j].accountAlias);
    var a, b := SplitAlias(es[i].accountAlias), SplitAlias(es[j].accountAlias);
    ConcatKeyParts(i, a, es[i].balanceKey);
    ConcatKeyParts(j, b, es[j].balanceKey);
    ConcatKeyInjective(i, a, es[i].balanceKey, j, b, es[j].balanceKey);
  }

  /** Without that condition keys do collide: a leg that carries another leg's index. */
  lemma StaleIndexCollides<A>(es: seq<FromTo<A>>, i: nat, j: nat)
    requires i < |es| && j < |es| && '#' !in es[j].accountAlias
    requires es[i].accountAlias == ConcatKey(j, es[j].accountAlias, es[j].balanceKey)
    ensures ConcatAll(es)[i].accountAlias == ConcatAll(es)[j].accountAlias
  {
    ConcatKeyParts(j, es[j].accountAlias, es[j].balanceKey);
    ConcatedIff(es[j].accountAlias);
  }
}
