/** The search escaper of pkg/net/http/httputils.go, read back under the rules of SQL LIKE with a
    backslash as escape character (section 9.7.1 of the PostgreSQL documentation). */
module LikeEscape {

  /** Replaces every occurrence of one character. */
  function ReplaceAll(s: string, target: char, with: string): string {
    if |s| == 0 then "" else (if s[0] == target then with else [s[0]]) + ReplaceAll(s[1..], target, with)
  }

  /** Three passes; the backslash goes first. */
  function EscapeSearchMetacharacters(input: string): string {
    var result := ReplaceAll(input, '\\', "\\\\");
    var result := ReplaceAll(result, '%', "\\%");
    ReplaceAll(result, '_', "\\_")
  }

  predicate IsMeta(c: char) {
    c == '\\' || c == '%' || c == '_'
  }

  function EscapeChar(c: char): string {
    if IsMeta(c) then ['\\', c] else [c]
  }

  /** One pass over the characters. */
  function EscapeOnce(s: string): string {
    if |s| == 0 then "" else EscapeChar(s[0]) + EscapeOnce(s[1..])
  }

  lemma {:induction false} ReplaceAllConcat(s: string, t: string, target: char, with: string)
    ensures ReplaceAll(s + t, target, with) == ReplaceAll(s, target, with) + ReplaceAll(t, target, with)
  {
    if |s| == 0 {
      assert s + t == t;
    } else {
      assert (s + t)[1..] == s[1..] + t;
      ReplaceAllConcat(s[1..], t, target, with);
    }
  }

  lemma ReplaceOne(c: char, target: char, with: string)
    ensures ReplaceAll([c], target, with) == if c == target then with else [c]
  {
    assert [c][1..] == "";
  }

  lemma ReplaceTwo(c: char, d: char, target: char, with: string)
    ensures ReplaceAll([c, d], target, with) == ReplaceAll([c], target, with) + ReplaceAll([d], target, with)
  {
    assert [c] + [d] == [c, d];
    ReplaceAllConcat([c], [d], target, with);
  }

  lemma EscapesOneChar(c: char)
    ensures EscapeSearchMetacharacters([c]) == EscapeChar(c)
  {
    ReplaceOne(c, '\\', "\\\\");
    ReplaceOne(c, '%', "\\%");
    ReplaceOne(c, '_', "\\_");
    ReplaceOne('\\', '%', "\\%");
    ReplaceOne('\\', '_', "\\_");
    ReplaceOne('%', '_', "\\_");
    ReplaceTwo('\\', '\\', '%', "\\%");
    ReplaceTwo('\\', '\\', '_', "\\_");
    ReplaceTwo('\\', '%', '_', "\\_");
  }

  lemma EscapeConcat(s: string, t: string)
    ensures EscapeSearchMetacharacters(s + t) == EscapeSearchMetacharacters(s) + EscapeSearchMetacharacters(t)
  {
    ReplaceAllConcat(s, t, '\\', "\\\\");
    var s1, t1 := ReplaceAll(s, '\\', "\\\\"), ReplaceAll(t, '\\', "\\\\");
    ReplaceAllConcat(s1, t1, '%', "\\%");
    ReplaceAllConcat(ReplaceAll(s1, '%', "\\%"), ReplaceAll(t1, '%', "\\%"), '_', "\\_");
  }

  /** The three passes are one: no pass escapes what an earlier one inserted. */
  lemma {:induction false} ThreePassesAreOne(s: string)
    ensures EscapeSearchMetacharacters(s) == EscapeOnce(s)
  {
    if |s| > 0 {
      assert [s[0]] + s[1..] == s;
      EscapeConcat([s[0]], s[1..]);
      EscapesOneChar(s[0]);
      ThreePassesAreOne(s[1..]);
    }
  }

  // ---------- LIKE ----------

  /** `text LIKE pattern ESCAPE '\'`. A pattern that ends in a lone backslash is an error, and
      matches nothing. */
  predicate Like(text: string, pattern: string)
    decreases |pattern|
  {
    if |pattern| == 0 then |text| == 0
    else if pattern[0] == '\\' then
      |pattern| > 1 && |text| > 0 && text[0] == pattern[1] && Like(text[1..], pattern[2..])
    else if pattern[0] == '%' then
      exists k :: 0 <= k <= |text| && Like(text[k..], pattern[1..])
    else
      |text| > 0 && (pattern[0] == '_' || text[0] == pattern[0]) && Like(text[1..], pattern[1..])
  }

  /** An escaped string followed by any pattern eats exactly that string, then goes on. */
  lemma {:induction false} EscapedEatsItself(s: string, rest: string, text: string)
    ensures Like(text, EscapeOnce(s) + rest) <==> s <= text && Like(text[|s|..], rest)
  {
    if |s| == 0 {
      assert EscapeOnce(s) + rest == rest && text[0..] == text;
    } else {
      var tail := EscapeOnce(s[1..]) + rest;
      assert EscapeOnce(s) + rest == EscapeChar(s[0]) + tail;
      assert (EscapeChar(s[0]) + tail)[|EscapeChar(s[0])|..] == tail;
      if |text| > 0 {
        EscapedEatsItself(s[1..], rest, text[1..]);
        assert text[0] == s[0] && s[1..] <= text[1..] <==> s <= text by {
          assert text == [text[0]] + text[1..] && s == [s[0]] + s[1..];
        }
        if s <= text {
          assert text[1..][|s| - 1..] == text[|s|..];
        }
      }
    }
  }

  /** No active wildcard is left: the escaped input matches itself and nothing else. */
  lemma EscapedMatchesExactly(s: string, text: string)
    ensures Like(text, EscapeSearchMetacharacters(s)) <==> text == s
  {
    ThreePassesAreOne(s);
    EscapedEatsItself(s, "", text);
    assert EscapeOnce(s) + "" == EscapeOnce(s);
  }

  lemma EscapeInjective(s: string, t: string)
    requires EscapeSearchMetacharacters(s) == EscapeSearchMetacharacters(t)
    ensures s == t
  {
    EscapedMatchesExactly(s, s);
    EscapedMatchesExactly(t, s);
  }

  // ---------- the queries that use it ----------

  function Lower(lower: char -> char, s: string): string {
    if |s| == 0 then "" else [lower(s[0])] + Lower(lower, s[1..])
  }

  lemma {:induction false} LowerOfEscape(lower: char -> char, s: string)
    requires forall c :: IsMeta(c) || IsMeta(lower(c)) ==> lower(c) == c
    ensures Lower(lower, EscapeOnce(s)) == EscapeOnce(Lower(lower, s))
  {
    if |s| > 0 {
      var c, tail := s[0], EscapeOnce(s[1..]);
      LowerOfEscape(lower, s[1..]);
      assert Lower(lower, s)[1..] == Lower(lower, s[1..]);
      if IsMeta(c) {
        assert IsMeta('\\');
        assert (['\\', c] + tail)[1..] == [c] + tail && ([c] + tail)[1..] == tail;
      } else {
        assert ([c] + tail)[1..] == tail;
      }
    }
  }

  lemma PercentMatchesAll(text: string)
    ensures Like(text, "%")
  {
    assert text[|text|..] == "" && "%"[1..] == "";
    assert Like(text[|text|..], "%"[1..]);
  }

  /** `lower(name) LIKE lower(?) || '%'` with the escaped term finds exactly the names that start
      with it up to case, for any lower-casing that leaves the three metacharacters alone. */
  lemma PrefixSearchExact(lower: char -> char, term: string, name: string)
    requires forall c :: IsMeta(c) || IsMeta(lower(c)) ==> lower(c) == c
    ensures Like(Lower(lower, name), Lower(lower, EscapeSearchMetacharacters(term)) + "%")
            <==> Lower(lower, term) <= Lower(lower, name)
  {
    ThreePassesAreOne(term);
    LowerOfEscape(lower, term);
    var t, n := Lower(lower, term), Lower(lower, name);
    EscapedEatsItself(t, "%", n);
    if t <= n {
      PercentMatchesAll(n[|t|..]);
    }
  }
}
