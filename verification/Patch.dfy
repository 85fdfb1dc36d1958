/** The patch builder of pkg/mongo/mongo.go: a nested document is flattened into dotted paths by a
    recursion that writes into one shared map, and split into `$set` and `$unset`. */
module DocumentPatch {
  import opened TransactionTypes

  datatype Scalar = Null | Text(s: string) | Number(r: real) | Flag(b: bool) | Array(items: seq<Scalar>)

  datatype Element = Element(key: string, value: Bson)

  /** A value is a leaf, an unordered bson.M or an ordered bson.D, which may repeat a key. */
  datatype Bson = Leaf(value: Scalar) | Unordered(m: map<string, Bson>) | Ordered(d: seq<Element>)

  type Path = seq<string>

  type Flat = map<string, Scalar>

  // ---------- documents as sets of leaves ----------

  predicate HasChild(v: Bson, k: string, x: Bson) {
    match v
    case Leaf(_) => false
    case Unordered(m) => k in m && m[k] == x
    case Ordered(d) => Element(k, x) in d
  }

  /** Following the path from v may end in the leaf x. */
  ghost predicate IsLeaf(v: Bson, path: Path, x: Scalar)
    decreases |path|
  {
    if |path| == 0 then v == Leaf(x)
    else exists child :: HasChild(v, path[0], child) && IsLeaf(child, path[1..], x)
  }

  predicate GoodKey(k: string) {
    |k| > 0 && '.' !in k
  }

  predicate GoodPath(p: Path) {
    forall i :: 0 <= i < |p| ==> GoodKey(p[i])
  }

  /** Keys are non-empty, dot-free and, within one document, distinct. */
  ghost predicate GoodDocument(v: Bson) {
    match v
    case Leaf(_) => true
    case Unordered(m) => forall k :: k in m ==> GoodKey(k) && GoodDocument(m[k])
    case Ordered(d) =>
      && (forall i :: 0 <= i < |d| ==> GoodKey(d[i].key) && GoodDocument(d[i].value))
      && (forall i, j :: 0 <= i < j < |d| ==> d[i].key != d[j].key)
  }

  lemma GoodChild(v: Bson, k: string, x: Bson, y: Bson)
    requires GoodDocument(v) && HasChild(v, k, x) && HasChild(v, k, y)
    ensures GoodKey(k) && GoodDocument(x) && x == y
  {
    if v.Ordered? {
      var i :| 0 <= i < |v.d| && v.d[i] == Element(k, x);
      var j :| 0 <= j < |v.d| && v.d[j] == Element(k, y);
    }
  }

  /** In a good document every leaf path is good and leads to one leaf. */
  lemma {:induction false} LeavesAreGood(v: Bson, p: Path, x: Scalar, y: Scalar)
    requires GoodDocument(v) && IsLeaf(v, p, x) && IsLeaf(v, p, y)
    ensures GoodPath(p) && x == y
    decreases |p|
  {
    if |p| > 0 {
      var a :| HasChild(v, p[0], a) && IsLeaf(a, p[1..], x);
      var b :| HasChild(v, p[0], b) && IsLeaf(b, p[1..], y);
      GoodChild(v, p[0], a, b);
      LeavesAreGood(a, p[1..], x, y);
      assert forall i :: 0 <= i < |p| ==> p[i] == if i == 0 then p[0] else p[1..][i - 1];
    }
  }

  // ---------- dotted paths ----------

  function JoinKey(prefix: string, key: string): string {
    if prefix == "" then key else prefix + "." + key
  }

  /** The key under which the recursion files a leaf. */
  function Join(prefix: string, p: Path): string
    decreases |p|
  {
    if |p| == 0 then prefix else Join(JoinKey(prefix, p[0]), p[1..])
  }

  function Dotted(p: Path): string
    requires |p| > 0
  {
    if |p| == 1 then p[0] else p[0] + "." + Dotted(p[1..])
  }

  /** Every string, cut at its dots. */
  function Split(s: string): (p: Path)
    ensures |p| > 0
  {
    if |s| == 0 then [""]
    else
      var p := Split(s[1..]);
      if s[0] == '.' then [""] + p else [[s[0]] + p[0]] + p[1..]
  }

  lemma {:induction false} SplitAtDot(a: string, b: string)
    ensures Split(a + "." + b) == Split(a) + Split(b)
  {
    var s := a + "." + b;
    if |a| == 0 {
      assert s == "." + b && s[1..] == b;
    } else {
      assert s[1..] == a[1..] + "." + b && s[0] == a[0];
      SplitAtDot(a[1..], b);
    }
  }

  lemma {:induction false} SplitDotFree(a: string)
    requires '.' !in a
    ensures Split(a) == [a]
  {
    if |a| > 0 {
      SplitDotFree(a[1..]);
      assert a == [a[0]] + a[1..];
    }
  }

  lemma {:induction false} SplitOfDotted(p: Path)
    requires |p| > 0 && GoodPath(p)
    ensures Split(Dotted(p)) == p
  {
    SplitDotFree(p[0]);
    if |p| > 1 {
      SplitOfDotted(p[1..]);
      SplitAtDot(p[0], Dotted(p[1..]));
    }
  }

  lemma {:induction false} DottedConcat(p: Path, q: Path)
    requires |p| > 0 && |q| > 0
    ensures Dotted(p + q) == Dotted(p) + "." + Dotted(q)
  {
    if |p| == 1 {
      assert (p + q)[1..] == q;
    } else {
      assert (p + q)[1..] == p[1..] + q;
      DottedConcat(p[1..], q);
    }
  }

  lemma DottedAfterDot(p: Path)
    requires |p| > 0
    ensures Dotted([""] + p) == "." + Dotted(p)
  {
    assert ([""] + p)[1..] == p;
    assert "" + "." + Dotted(p) == "." + Dotted(p);
  }

  lemma DottedGrow(c: char, p: Path, q: Path)
    requires |p| > 0 && q == [[c] + p[0]] + p[1..]
    ensures Dotted(q) == [c] + Dotted(p)
  {
    assert q[0] == [c] + p[0] && q[1..] == p[1..];
    if |p| > 1 {
      var d := Dotted(p[1..]);
      assert ([c] + p[0]) + "." + d == [c] + (p[0] + "." + d);
    }
  }

  lemma {:induction false} DottedOfSplit(s: string)
    ensures Dotted(Split(s)) == s
  {
    if |s| > 0 {
      DottedOfSplit(s[1..]);
      assert s == [s[0]] + s[1..];
      if s[0] == '.' {
        DottedAfterDot(Split(s[1..]));
      } else {
        DottedGrow(s[0], Split(s[1..]), Split(s));
      }
    }
  }

  lemma {:induction false} JoinIsDotted(prefix: string, p: Path)
    requires prefix != "" || (|p| > 0 && p[0] != "")
    ensures Join(prefix, p) == Dotted(if prefix == "" then p else [prefix] + p)
    decreases |p|
  {
    if prefix == "" {
      JoinIsDotted(p[0], p[1..]);
      assert [p[0]] + p[1..] == p;
    } else if |p| == 0 {
      assert [prefix] + p == [prefix];
    } else {
      JoinIsDotted(prefix + "." + p[0], p[1..]);
      var q := [prefix + "." + p[0]] + p[1..];
      var r := [prefix] + p;
      assert q[1..] == p[1..] && r[1..] == p;
    }
  }

  /** `key == f`, or key lies below f. */
  predicate Unsets(key: string, f: string) {
    key == f || f + "." <= key
  }

  lemma UnsetsBelow(p: Path, q: Path)
    requires |q| > 0 && q <= p
    ensures Unsets(Dotted(p), Dotted(q))
  {
    if |q| < |p| {
      assert q + p[|q|..] == p;
      DottedConcat(q, p[|q|..]);
    }
  }

  lemma SplitBelow(key: string, f: string)
    requires f + "." <= key
    ensures Split(f) <= Split(key)
  {
    var rest := key[|f| + 1..];
    assert key == f + "." + rest;
    SplitAtDot(f, rest);
  }

  /** String prefixes are path prefixes: a dotted path is at or below a field, whatever string that
      field is, exactly when the field's components begin the path. */
  lemma UnsetsIff(p: Path, f: string)
    requires |p| > 0 && GoodPath(p)
    ensures Unsets(Dotted(p), f) <==> Split(f) <= p
  {
    var key := Dotted(p);
    assert Split(key) == p by { SplitOfDotted(p); }
    if Split(f) <= p {
      UnsetsBelow(p, Split(f));
      DottedOfSplit(f);
    } else if f + "." <= key {
      SplitBelow(key, f);
    }
  }

  // ---------- flattening into the shared map ----------

  /** Flattening v under the prefix writes x at key k. */
  ghost predicate Writes(prefix: string, v: Bson, k: string, x: Scalar) {
    exists p :: IsLeaf(v, p, x) && Join(prefix, p) == k
  }

  ghost function Written(prefix: string, v: Bson): iset<(string, Scalar)> {
    iset e: (string, Scalar) | Writes(prefix, v, e.0, e.1)
  }

  /** `after` is `before` with the writes of w, in some order. */
  ghost predicate Covers(before: Flat, after: Flat, w: iset<(string, Scalar)>) {
    && (forall e :: e in w ==> e.0 in after)
    && (forall k :: k in before ==> k in after)
    && (forall k :: k in after ==>
          (k, after[k]) in w || (k in before && after[k] == before[k] && forall e :: e in w ==> e.0 != k))
  }

  lemma CoversChain(a: Flat, b: Flat, c: Flat, v: iset<(string, Scalar)>, w: iset<(string, Scalar)>)
    requires Covers(a, b, v) && Covers(b, c, w)
    ensures Covers(a, c, v + w)
  {
  }

  lemma WritesOfLeaf(prefix: string, x: Scalar)
    ensures Written(prefix, Leaf(x)) == iset{(prefix, x)}
  {
    assert IsLeaf(Leaf(x), [], x) && Join(prefix, []) == prefix;
    forall k, y | Writes(prefix, Leaf(x), k, y) ensures k == prefix && y == x {
      var p :| IsLeaf(Leaf(x), p, y) && Join(prefix, p) == k;
    }
  }

  lemma WritesOfChild(prefix: string, v: Bson, k: string, x: Scalar)
    requires !v.Leaf?
    ensures Writes(prefix, v, k, x) <==>
            exists key, child :: HasChild(v, key, child) && Writes(JoinKey(prefix, key), child, k, x)
  {
    if Writes(prefix, v, k, x) {
      var p :| IsLeaf(v, p, x) && Join(prefix, p) == k;
      var child :| HasChild(v, p[0], child) && IsLeaf(child, p[1..], x);
      assert Writes(JoinKey(prefix, p[0]), child, k, x);
    }
    if key, child :| HasChild(v, key, child) && Writes(JoinKey(prefix, key), child, k, x) {
      var p :| IsLeaf(child, p, x) && Join(JoinKey(prefix, key), p) == k;
      var q := [key] + p;
      assert q[1..] == p;
      assert IsLeaf(v, q, x) && Join(prefix, q) == k;
    }
  }

  class FlatDocument {
    var entries: Flat

    constructor ()
      ensures entries == map[]
    {
      entries := map[];
    }
  }

  ghost function WrittenUnder(prefix: string, m: map<string, Bson>, keys: set<string>): iset<(string, Scalar)> {
    iset e: (string, Scalar) | exists k :: k in keys && k in m && Writes(JoinKey(prefix, k), m[k], e.0, e.1)
  }

  ghost function WrittenBefore(prefix: string, d: seq<Element>, n: nat): iset<(string, Scalar)> {
    iset e: (string, Scalar) |
      exists i :: 0 <= i < n && i < |d| && Writes(JoinKey(prefix, d[i].key), d[i].value, e.0, e.1)
  }

  lemma UnorderedWrites(prefix: string, m: map<string, Bson>)
    ensures Written(prefix, Unordered(m)) == WrittenUnder(prefix, m, m.Keys)
  {
    forall k, x ensures (k, x) in Written(prefix, Unordered(m)) <==> (k, x) in WrittenUnder(prefix, m, m.Keys) {
      WritesOfChild(prefix, Unordered(m), k, x);
    }
  }

  lemma OrderedWrites(prefix: string, d: seq<Element>)
    ensures Written(prefix, Ordered(d)) == WrittenBefore(prefix, d, |d|)
  {
    forall k, x ensures (k, x) in Written(prefix, Ordered(d)) <==> (k, x) in WrittenBefore(prefix, d, |d|) {
      WritesOfChild(prefix, Ordered(d), k, x);
      if key, child :| HasChild(Ordered(d), key, child) && Writes(JoinKey(prefix, key), child, k, x) {
        var i :| 0 <= i < |d| && d[i] == Element(key, child);
        assert Writes(JoinKey(prefix, d[i].key), d[i].value, k, x);
      }
      if i :| 0 <= i < |d| && Writes(JoinKey(prefix, d[i].key), d[i].value, k, x) {
        assert HasChild(Ordered(d), d[i].key, d[i].value);
      }
    }
  }

  method FlattenValue(key: string, v: Bson, flat: FlatDocument)
    modifies flat
    ensures Covers(old(flat.entries), flat.entries, Written(key, v))
    decreases v, 1
  {
    ghost var before := flat.entries;
    match v {
      case Leaf(x) =>
        WritesOfLeaf(key, x);
        flat.entries := flat.entries[key := x];
      case Unordered(m) =>
        FlattenBSONM(m, key, flat);
      case Ordered(d) =>
        for i := 0 to |d|
          invariant Covers(before, flat.entries, WrittenBefore(key, d, i))
        {
          ghost var mid := flat.entries;
          FlattenValue(JoinKey(key, d[i].key), d[i].value, flat);
          var here := (JoinKey(key, d[i].key), d[i].value);
          CoversChain(before, mid, flat.entries, WrittenBefore(key, d, i), Written(here.0, here.1));
          assert WrittenBefore(key, d, i + 1) == WrittenBefore(key, d, i) + Written(here.0, here.1);
        }
        OrderedWrites(key, d);
    }
  }

  method FlattenBSONM(m: map<string, Bson>, prefix: string, flat: FlatDocument)
    modifies flat
    ensures Covers(old(flat.entries), flat.entries, Written(prefix, Unordered(m)))
    decreases Unordered(m), 0
  {
    ghost var before := flat.entries;
    var todo := m.Keys;
    ghost var done: set<string> := {};
    while todo != {}
      invariant todo <= m.Keys && done == m.Keys - todo
      invariant Covers(before, flat.entries, WrittenUnder(prefix, m, done))
      decreases todo
    {
      var k :| k in todo;
      ghost var mid := flat.entries;
      FlattenValue(JoinKey(prefix, k), m[k], flat);
      CoversChain(before, mid, flat.entries, WrittenUnder(prefix, m, done), Written(JoinKey(prefix, k), m[k]));
      assert WrittenUnder(prefix, m, done + {k}) == WrittenUnder(prefix, m, done) + Written(JoinKey(prefix, k), m[k]);
      todo := todo - {k};
      done := done + {k};
    }
    UnorderedWrites(prefix, m);
  }

  // ---------- what flattening means ----------

  type LeafSet = iset<(Path, Scalar)>

  ghost function Leaves(v: Bson): LeafSet {
    iset e: (Path, Scalar) | IsLeaf(v, e.0, e.1)
  }

  /** One leaf per path, and every path good. */
  ghost predicate Proper(leaves: LeafSet) {
    && (forall e :: e in leaves ==> |e.0| > 0 && GoodPath(e.0))
    && (forall e, f :: e in leaves && f in leaves && e.0 == f.0 ==> e == f)
  }

  lemma ProperLeaves(v: Bson)
    requires GoodDocument(v) && !v.Leaf?
    ensures Proper(Leaves(v))
  {
    forall e, f | e in Leaves(v) && f in Leaves(v) && e.0 == f.0 ensures |e.0| > 0 && GoodPath(e.0) && e == f {
      LeavesAreGood(v, e.0, e.1, f.1);
    }
  }

  /** The flat map is exactly the leaves, each under its dotted path. */
  ghost predicate IsFlattening(leaves: LeafSet, flat: Flat) {
    && (forall e :: e in leaves ==> |e.0| > 0 && Dotted(e.0) in flat && flat[Dotted(e.0)] == e.1)
    && (forall k :: k in flat ==> exists p :: (p, flat[k]) in leaves && |p| > 0 && Dotted(p) == k)
  }

  lemma WrittenIsLeaves(v: Bson, k: string, x: Scalar)
    requires Proper(Leaves(v))
    ensures (k, x) in Written("", v) <==> (Split(k), x) in Leaves(v)
  {
    if Writes("", v, k, x) {
      var p :| IsLeaf(v, p, x) && Join("", p) == k;
      assert (p, x) in Leaves(v);
      JoinIsDotted("", p);
      SplitOfDotted(p);
    }
    if (Split(k), x) in Leaves(v) {
      JoinIsDotted("", Split(k));
      DottedOfSplit(k);
    }
  }

  lemma FlatteningOf(leaves: LeafSet, written: iset<(string, Scalar)>, flat: Flat)
    requires Proper(leaves) && Covers(map[], flat, written)
    requires forall k, x :: (k, x) in written <==> (Split(k), x) in leaves
    ensures IsFlattening(leaves, flat)
  {
    forall e | e in leaves ensures Dotted(e.0) in flat && flat[Dotted(e.0)] == e.1 {
      var k := Dotted(e.0);
      SplitOfDotted(e.0);
      assert (Split(k), e.1) in leaves;
      assert (k, e.1) in written;
      assert (k, flat[k]) in written;
      assert (Split(k), flat[k]) in leaves;
    }
    forall k | k in flat ensures exists p :: (p, flat[k]) in leaves && |p| > 0 && Dotted(p) == k {
      assert (k, flat[k]) in written;
      DottedOfSplit(k);
    }
  }

  /** For a good document, whatever the iteration order, the flat map holds exactly its leaves. */
  lemma FlatteningIsLeaves(v: Bson, flat: Flat)
    requires GoodDocument(v) && !v.Leaf? && Covers(map[], flat, Written("", v))
    ensures Proper(Leaves(v)) && IsFlattening(Leaves(v), flat)
  {
    ProperLeaves(v);
    forall k, x ensures (k, x) in Written("", v) <==> (Split(k), x) in Leaves(v) {
      WrittenIsLeaves(v, k, x);
    }
    FlatteningOf(Leaves(v), Written("", v), flat);
  }

  lemma FlatteningUnique(leaves: LeafSet, f: Flat, g: Flat)
    requires IsFlattening(leaves, f) && IsFlattening(leaves, g)
    ensures f == g
  {
    assert forall k :: k in f ==> k in g && g[k] == f[k];
    assert forall k :: k in g ==> k in f;
  }

  /** Every element of v has a counterpart in w, whichever of bson.M and bson.D holds it. */
  ghost predicate Within(v: Bson, w: Bson)
    decreases v
  {
    if v.Leaf? || w.Leaf? then v == w
    else forall k, x :: HasChild(v, k, x) ==> exists y :: HasChild(w, k, y) && Within(x, y)
  }

  lemma {:induction false} LeavesWithin(v: Bson, w: Bson, p: Path, x: Scalar)
    requires Within(v, w) && IsLeaf(v, p, x)
    ensures IsLeaf(w, p, x)
    decreases |p|
  {
    if |p| > 0 {
      var a :| HasChild(v, p[0], a) && IsLeaf(a, p[1..], x);
      var b :| HasChild(w, p[0], b) && Within(a, b);
      LeavesWithin(a, b, p[1..], x);
    }
  }

  lemma LeavesSubset(v: Bson, w: Bson)
    requires Within(v, w)
    ensures Leaves(v) <= Leaves(w)
  {
    forall e | e in Leaves(v) ensures e in Leaves(w) {
      LeavesWithin(v, w, e.0, e.1);
    }
  }

  lemma SameLeaves(v: Bson, w: Bson)
    requires Within(v, w) && Within(w, v)
    ensures Leaves(v) == Leaves(w)
  {
    LeavesSubset(v, w);
    LeavesSubset(w, v);
  }

  // ---------- the patch ----------

  predicate ShouldUnset(key: string, fieldsToRemove: seq<string>) {
    exists i :: 0 <= i < |fieldsToRemove| && Unsets(key, fieldsToRemove[i])
  }

  function UnsetKey(snake: string -> string, f: string): string {
    if "metadata." <= f then f else snake(f)
  }

  function UnsetValue(f: string): string {
    if "metadata." <= f then "" else f
  }

  /** A later field overwrites an earlier one under the same key. */
  function UnsetMap(snake: string -> string, fields: seq<string>): map<string, string> {
    if |fields| == 0 then map[]
    else
      var f := fields[|fields| - 1];
      UnsetMap(snake, fields[..|fields| - 1])[UnsetKey(snake, f) := UnsetValue(f)]
  }

  lemma {:induction false} UnsetKeys(snake: string -> string, fields: seq<string>, k: string)
    ensures k in UnsetMap(snake, fields) <==> exists f :: f in fields && UnsetKey(snake, f) == k
  {
    if |fields| > 0 {
      var init, last := fields[..|fields| - 1], fields[|fields| - 1];
      assert fields == init + [last];
      UnsetKeys(snake, init, k);
    }
  }

  /** A metadata field is unset under its own name with an empty value, any other field under its
      snake-cased name with its own name as value; where names meet, the last field counts. */
  lemma {:induction false} UnsetEntry(snake: string -> string, fields: seq<string>, i: nat)
    requires i < |fields|
    requires forall j :: i < j < |fields| ==> UnsetKey(snake, fields[j]) != UnsetKey(snake, fields[i])
    ensures var k, m := if "metadata." <= fields[i] then fields[i] else snake(fields[i]), UnsetMap(snake, fields);
            k in m && m[k] == if "metadata." <= fields[i] then "" else fields[i]
  {
    var n := |fields| - 1;
    if i < n {
      assert UnsetKey(snake, fields[n]) != UnsetKey(snake, fields[i]);
      UnsetEntry(snake, fields[..n], i);
    }
  }

  /** The unset section is absent exactly when no field is removed. */
  lemma UnsetAbsentIff(snake: string -> string, fields: seq<string>)
    ensures NonEmpty(UnsetMap(snake, fields)).None? <==> fields == []
  {
    if fields != [] {
      UnsetKeys(snake, fields, UnsetKey(snake, fields[0]));
    }
  }

  /** The flat map less the keys at or below a removed field. */
  function Kept(flat: Flat, fields: seq<string>): Flat {
    map k | k in flat && !ShouldUnset(k, fields) :: flat[k]
  }

  /** The `$set` and `$unset` sections, each present only when it is not empty. */
  datatype Update = Update(sets: Option<Flat>, unsets: Option<map<string, string>>)

  function NonEmpty<V>(m: map<string, V>): Option<map<string, V>> {
    if |m| > 0 then Some(m) else None
  }

  /** The set section a patch of this document may have. */
  ghost predicate Patches(document: Bson, fields: seq<string>, section: Option<Flat>) {
    exists flat :: Covers(map[], flat, Written("", document)) && section == NonEmpty(Kept(flat, fields))
  }

  method CollectSet(flat: Flat, fieldsToRemove: seq<string>) returns (setMap: Flat)
    ensures setMap == Kept(flat, fieldsToRemove)
  {
    setMap := map[];
    var todo := flat.Keys;
    while todo != {}
      invariant todo <= flat.Keys
      invariant setMap == map k | k in flat && k !in todo && !ShouldUnset(k, fieldsToRemove) :: flat[k]
    {
      var k :| k in todo;
      if !ShouldUnset(k, fieldsToRemove) {
        setMap := setMap[k := flat[k]];
      }
      todo := todo - {k};
    }
  }

  method CollectUnset(fieldsToRemove: seq<string>, snake: string -> string) returns (unsetMap: map<string, string>)
    ensures unsetMap == UnsetMap(snake, fieldsToRemove)
  {
    unsetMap := map[];
    for i := 0 to |fieldsToRemove|
      invariant unsetMap == UnsetMap(snake, fieldsToRemove[..i])
    {
      var v := fieldsToRemove[i];
      assert fieldsToRemove[..i + 1][..i] == fieldsToRemove[..i];
      if "metadata." <= v {
        unsetMap := unsetMap[v := ""];
      } else {
        unsetMap := unsetMap[snake(v) := v];
      }
    }
    assert fieldsToRemove[..|fieldsToRemove|] == fieldsToRemove;
  }

  method BuildDocumentToPatch(document: map<string, Bson>, fieldsToRemove: seq<string>, snake: string -> string)
    returns (update: Update)
    ensures Patches(Unordered(document), fieldsToRemove, update.sets)
    ensures update.unsets == NonEmpty(UnsetMap(snake, fieldsToRemove))
  {
    var flat := new FlatDocument();
    FlattenBSONM(document, "", flat);
    var setMap := CollectSet(flat.entries, fieldsToRemove);
    var unsetMap := CollectUnset(fieldsToRemove, snake);
    update := Update(None, None);
    if |setMap| > 0 {
      update := update.(sets := Some(setMap));
    }
    if |unsetMap| > 0 {
      update := update.(unsets := Some(unsetMap));
    }
  }

  ghost predicate Removed(p: Path, fields: seq<string>) {
    exists i :: 0 <= i < |fields| && Split(fields[i]) <= p
  }

  lemma RemovedIff(p: Path, fields: seq<string>)
    requires |p| > 0 && GoodPath(p)
    ensures ShouldUnset(Dotted(p), fields) <==> Removed(p, fields)
  {
    forall i | 0 <= i < |fields| ensures Unsets(Dotted(p), fields[i]) <==> Split(fields[i]) <= p {
      UnsetsIff(p, fields[i]);
    }
  }

  function Section(section: Option<Flat>): Flat {
    if section.Some? then section.value else map[]
  }

  /** The leaves not at or below a removed path. */
  ghost function KeptLeaves(leaves: LeafSet, fields: seq<string>): LeafSet {
    iset e | e in leaves && !Removed(e.0, fields)
  }

  lemma KeptIsFlattening(leaves: LeafSet, fields: seq<string>, flat: Flat)
    requires Proper(leaves) && IsFlattening(leaves, flat)
    ensures IsFlattening(KeptLeaves(leaves, fields), Kept(flat, fields))
  {
    forall e | e in KeptLeaves(leaves, fields) ensures Dotted(e.0) in Kept(flat, fields) {
      RemovedIff(e.0, fields);
    }
    forall k | k in Kept(flat, fields)
      ensures exists p :: (p, flat[k]) in KeptLeaves(leaves, fields) && |p| > 0 && Dotted(p) == k
    {
      var p :| (p, flat[k]) in leaves && |p| > 0 && Dotted(p) == k;
      RemovedIff(p, fields);
      assert (p, flat[k]) in KeptLeaves(leaves, fields);
    }
  }

  /** `$set` holds exactly the leaves not at or below a removed path, under their dotted paths; it
      is absent exactly when there is none. */
  lemma SetHoldsKeptLeaves(v: Bson, fields: seq<string>, section: Option<Flat>)
    requires GoodDocument(v) && !v.Leaf? && Patches(v, fields, section)
    ensures IsFlattening(KeptLeaves(Leaves(v), fields), Section(section))
    ensures section.None? <==> KeptLeaves(Leaves(v), fields) == iset{}
  {
    var flat :| Covers(map[], flat, Written("", v)) && section == NonEmpty(Kept(flat, fields));
    FlatteningIsLeaves(v, flat);
    SetOfLeaves(Leaves(v), fields, flat, section);
  }

  lemma SetOfLeaves(leaves: LeafSet, fields: seq<string>, flat: Flat, section: Option<Flat>)
    requires Proper(leaves) && IsFlattening(leaves, flat) && section == NonEmpty(Kept(flat, fields))
    ensures IsFlattening(KeptLeaves(leaves, fields), Section(section))
    ensures section.None? <==> KeptLeaves(leaves, fields) == iset{}
  {
    KeptIsFlattening(leaves, fields, flat);
    assert Section(section) == Kept(flat, fields);
    SetAbsentIff(KeptLeaves(leaves, fields), section);
  }

  lemma SetAbsentIff(kept: LeafSet, section: Option<Flat>)
    requires IsFlattening(kept, Section(section)) && (section.Some? ==> |section.value| > 0)
    ensures section.None? <==> kept == iset{}
  {
    if section.Some? {
      var k :| k in section.value;
      var p :| (p, section.value[k]) in kept && |p| > 0 && Dotted(p) == k;
    }
  }

  /** The `$set` section is the same for every iteration order and decoded representation. */
  lemma PatchUnique(v: Bson, w: Bson, fields: seq<string>, s: Option<Flat>, t: Option<Flat>)
    requires GoodDocument(v) && GoodDocument(w) && !v.Leaf? && !w.Leaf? && Within(v, w) && Within(w, v)
    requires Patches(v, fields, s) && Patches(w, fields, t)
    ensures s == t
  {
    SameLeaves(v, w);
    SetHoldsKeptLeaves(v, fields, s);
    SetHoldsKeptLeaves(w, fields, t);
    FlatteningUnique(KeptLeaves(Leaves(v), fields), Section(s), Section(t));
  }

  // ---------- do the two sections clash? ----------

  /** Some key is set at, below or above a path that is unset; the server refuses such an update. */
  ghost predicate Clash(u: Update) {
    exists k, f :: k in Section(u.sets) && f in UnsetSection(u) && (Unsets(k, f) || Unsets(f, k))
  }

  function UnsetSection(u: Update): map<string, string> {
    if u.unsets.Some? then u.unsets.value else map[]
  }

  /** Of two paths, one begins the other. */
  predicate OnOnePath(p: Path, q: Path) {
    p <= q || q <= p
  }

  /** A kept leaf lies at, under or above a field's rewritten name. */
  ghost predicate RenamedOnto(leaves: LeafSet, fields: seq<string>, snake: string -> string) {
    exists e, f :: e in KeptLeaves(leaves, fields) && f in fields && OnOnePath(Split(UnsetKey(snake, f)), e.0)
  }

  /** The other direction of `UnsetsIff`: any string lies at or below a dotted path exactly when the
      path begins its components. */
  lemma UnderLeafIff(p: Path, f: string)
    requires |p| > 0 && GoodPath(p)
    ensures Unsets(f, Dotted(p)) <==> p <= Split(f)
  {
    assert Split(Dotted(p)) == p by { SplitOfDotted(p); }
    if p <= Split(f) {
      UnsetsBelow(Split(f), p);
      DottedOfSplit(f);
    } else if Dotted(p) + "." <= f {
      SplitBelow(f, Dotted(p));
    }
  }

  lemma ClashHits(leaves: LeafSet, fields: seq<string>, snake: string -> string, u: Update, k: string, g: string)
    requires Proper(leaves) && IsFlattening(KeptLeaves(leaves, fields), Section(u.sets))
    requires g in UnsetMap(snake, fields) && k in Section(u.sets) && (Unsets(k, g) || Unsets(g, k))
    ensures RenamedOnto(leaves, fields, snake)
  {
    UnsetKeys(snake, fields, g);
    var f :| f in fields && UnsetKey(snake, f) == g;
    var p :| (p, Section(u.sets)[k]) in KeptLeaves(leaves, fields) && |p| > 0 && Dotted(p) == k;
    UnsetsIff(p, g);
    UnderLeafIff(p, g);
  }

  lemma HitsClash(leaves: LeafSet, fields: seq<string>, snake: string -> string, u: Update)
    requires Proper(leaves) && IsFlattening(KeptLeaves(leaves, fields), Section(u.sets))
    requires UnsetSection(u) == UnsetMap(snake, fields) && RenamedOnto(leaves, fields, snake)
    ensures Clash(u)
  {
    var e, f :| e in KeptLeaves(leaves, fields) && f in fields && OnOnePath(Split(UnsetKey(snake, f)), e.0);
    UnsetsIff(e.0, UnsetKey(snake, f));
    UnderLeafIff(e.0, UnsetKey(snake, f));
    UnsetKeys(snake, fields, UnsetKey(snake, f));
  }

  lemma ClashOnLeaves(leaves: LeafSet, fields: seq<string>, snake: string -> string, u: Update)
    requires Proper(leaves) && IsFlattening(KeptLeaves(leaves, fields), Section(u.sets))
    requires UnsetSection(u) == UnsetMap(snake, fields)
    ensures Clash(u) <==> RenamedOnto(leaves, fields, snake)
  {
    if k, g :| k in Section(u.sets) && g in UnsetSection(u) && (Unsets(k, g) || Unsets(g, k)) {
      ClashHits(leaves, fields, snake, u, k, g);
    }
    if RenamedOnto(leaves, fields, snake) {
      HitsClash(leaves, fields, snake, u);
    }
  }

  /** A field strictly below a leaf that is set. */
  ghost predicate BelowLeaf(leaves: LeafSet, fields: seq<string>) {
    exists e, f :: e in KeptLeaves(leaves, fields) && f in fields && e.0 < Split(f)
  }

  lemma OwnNames(leaves: LeafSet, fields: seq<string>, snake: string -> string)
    requires forall f :: f in fields ==> UnsetKey(snake, f) == f
    ensures RenamedOnto(leaves, fields, snake) <==> BelowLeaf(leaves, fields)
  {
    forall e, f | e in KeptLeaves(leaves, fields) && f in fields
      ensures OnOnePath(Split(UnsetKey(snake, f)), e.0) <==> e.0 < Split(f)
    {
      var i :| 0 <= i < |fields| && fields[i] == f;
      assert !(Split(fields[i]) <= e.0);
    }
  }

  lemma ClashDecided(leaves: LeafSet, fields: seq<string>, snake: string -> string, u: Update)
    requires Proper(leaves) && IsFlattening(KeptLeaves(leaves, fields), Section(u.sets))
    requires u.unsets == NonEmpty(UnsetMap(snake, fields))
    ensures Clash(u) <==> RenamedOnto(leaves, fields, snake)
    ensures (forall f :: f in fields ==> UnsetKey(snake, f) == f) ==> (Clash(u) <==> BelowLeaf(leaves, fields))
  {
    assert UnsetSection(u) == UnsetMap(snake, fields);
    ClashOnLeaves(leaves, fields, snake, u);
    if forall f :: f in fields ==> UnsetKey(snake, f) == f {
      OwnNames(leaves, fields, snake);
    }
  }

  /** `$set` is filtered by the names as given while `$unset` uses their snake-cased form, so the
      sections clash exactly when a rewritten name and a leaf that no given name removes lie on one
      path; when the names are already snake-cased, exactly when one lies strictly below such a leaf. */
  lemma ClashIff(v: Bson, fields: seq<string>, snake: string -> string, u: Update)
    requires GoodDocument(v) && !v.Leaf?
    requires Patches(v, fields, u.sets) && u.unsets == NonEmpty(UnsetMap(snake, fields))
    ensures Clash(u) <==> RenamedOnto(Leaves(v), fields, snake)
    ensures (forall f :: f in fields ==> UnsetKey(snake, f) == f) ==> (Clash(u) <==> BelowLeaf(Leaves(v), fields))
  {
    ProperLeaves(v);
    SetHoldsKeptLeaves(v, fields, u.sets);
    ClashDecided(Leaves(v), fields, snake, u);
  }

  /** Such a clash: removing `aB` while `a_b` is set. */
  lemma ClashHappens(snake: string -> string, x: Scalar, u: Update)
    requires snake("aB") == "a_b"
    requires Patches(Unordered(map["a_b" := Leaf(x)]), ["aB"], u.sets) && u.unsets == NonEmpty(UnsetMap(snake, ["aB"]))
    ensures Clash(u)
  {
    var v := Unordered(map["a_b" := Leaf(x)]);
    SplitDotFree("a_b");
    SplitDotFree("aB");
    assert IsLeaf(v, ["a_b"], x) by {
      assert HasChild(v, "a_b", Leaf(x)) && IsLeaf(Leaf(x), ["a_b"][1..], x);
    }
    assert "a_b"[1] != "aB"[1];
    assert !("metadata." <= "aB");
    ClashIff(v, ["aB"], snake, u);
    assert RenamedOnto(Leaves(v), ["aB"], snake) by {
      assert (["a_b"], x) in KeptLeaves(Leaves(v), ["aB"]) && "aB" in ["aB"];
      assert OnOnePath(Split(UnsetKey(snake, "aB")), ["a_b"]);
    }
  }
}
