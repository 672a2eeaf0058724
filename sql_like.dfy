/**
  * SQLite's `LIKE` operator as the contact search uses it: no `ESCAPE`
  * clause, `%` matches any run of characters, `_` matches one character,
  * and letters compare case-insensitively for ASCII only.
  */
module SqlLike {

  /** SQLite's default case folding for `LIKE`: ASCII upper case to lower case, nothing else. */
  function Fold(c: char): (d: char)
    ensures 'A' <= c <= 'Z' ==> d as int == c as int + 32
    ensures !('A' <= c <= 'Z') ==> d == c
  {
    if 'A' <= c <= 'Z' then (c as int + 32) as char else c
  }

  /** A string with every character folded. */
  function FoldAll(s: string): (r: string)
    ensures |r| == |s|
    ensures forall i :: 0 <= i < |s| ==> r[i] == Fold(s[i])
  {
    if s == [] then [] else [Fold(s[0])] + FoldAll(s[1..])
  }

  /** Whether the string s matches the pattern p. */
  predicate Like(p: string, s: string)
    decreases |p| + |s|
  {
    if p == [] then s == []
    else if p[0] == '%' then Like(p[1..], s) || (s != [] && Like(p, s[1..]))
    else s != [] && (p[0] == '_' || Fold(p[0]) == Fold(s[0])) && Like(p[1..], s[1..])
  }

  /** The pattern `f"%{t}%"` built for a search term t. */
  function ContainsPattern(t: string): (p: string)
    ensures |p| == |t| + 2 && p[0] == '%' && p[|p| - 1] == '%'
    ensures p[1..|p| - 1] == t
  {
    "%" + t + "%"
  }

  /** A term with neither wildcard in it. */
  predicate Literal(t: string)
  {
    forall i :: 0 <= i < |t| ==> t[i] != '%' && t[i] != '_'
  }

  /** Whether t occurs in s at position k when letters are compared ASCII case-insensitively. */
  predicate OccursAt(s: string, t: string, k: nat)
  {
    k + |t| <= |s| && FoldAll(s[k..k + |t|]) == FoldAll(t)
  }

  /** Whether t occurs anywhere in s, ASCII case ignored. */
  predicate ContainsIgnoringCase(s: string, t: string)
  {
    exists k: nat | k <= |s| :: OccursAt(s, t, k)
  }

  /** The pattern `%` alone matches every string. */
  lemma {:induction false} PercentMatchesAll(s: string)
    ensures Like("%", s)
    decreases |s|
  {
    if s != [] {
      PercentMatchesAll(s[1..]);
    }
  }

  /** A literal term followed by `%` matches exactly the strings it begins, up to case. */
  lemma {:induction false} LiteralPrefix(t: string, s: string)
    requires Literal(t)
    ensures Like(t + "%", s) <==> |t| <= |s| && FoldAll(s[..|t|]) == FoldAll(t)
    decreases |t|
  {
    if t == [] {
      PercentMatchesAll(s);
      assert t + "%" == "%";
    } else {
      assert (t + "%")[0] == t[0] && (t + "%")[1..] == t[1..] + "%";
      if s != [] {
        assert Literal(t[1..]);
        LiteralPrefix(t[1..], s[1..]);
        if |t| <= |s| {
          assert s[1..][..|t| - 1] == s[..|t|][1..];
          FoldAllCons(s[..|t|]);
          FoldAllCons(t);
        }
      }
    }
  }

  /** Folding a non-empty string folds its first character and folds the rest. */
  lemma FoldAllCons(s: string)
    requires s != []
    ensures FoldAll(s) == [Fold(s[0])] + FoldAll(s[1..])
  {
  }

  /** A leading `%` lets the rest of the pattern match any suffix. */
  lemma {:induction false} LeadingPercent(q: string, s: string)
    ensures Like("%" + q, s) <==> exists k :: 0 <= k <= |s| && Like(q, s[k..])
    decreases |s|
  {
    assert ("%" + q)[0] == '%' && ("%" + q)[1..] == q;
    if s == [] {
      assert s[0..] == s;
    } else {
      LeadingPercent(q, s[1..]);
      if Like("%" + q, s) {
        if !Like(q, s) {
          var k :| 0 <= k <= |s[1..]| && Like(q, s[1..][k..]);
          assert s[1..][k..] == s[k + 1..];
        } else {
          assert s[0..] == s;
        }
      } else {
        forall k | 0 <= k <= |s| ensures !Like(q, s[k..]) {
          if k > 0 {
            assert s[1..][k - 1..] == s[k..];
          } else {
            assert s[0..] == s;
          }
        }
      }
    }
  }

  /**
    * For a search term without wildcards, `x LIKE '%t%'` holds exactly when
    * t occurs in x with ASCII case ignored.
    */
  lemma LiteralSearch(t: string, s: string)
    requires Literal(t)
    ensures Like(ContainsPattern(t), s) <==> ContainsIgnoringCase(s, t)
  {
    assert ContainsPattern(t) == "%" + (t + "%");
    LeadingPercent(t + "%", s);
    if Like(ContainsPattern(t), s) {
      var k :| 0 <= k <= |s| && Like(t + "%", s[k..]);
      LiteralPrefix(t, s[k..]);
      assert s[k..][..|t|] == s[k..k + |t|];
      assert OccursAt(s, t, k);
    } else {
      forall k: nat | OccursAt(s, t, k) ensures false {
        assert s[k..][..|t|] == s[k..k + |t|];
        LiteralPrefix(t, s[k..]);
      }
    }
  }

  /** The empty term's pattern `%%` matches every string. */
  lemma EmptyTermMatchesAll(s: string)
    ensures Like(ContainsPattern(""), s)
  {
    assert ContainsPattern("") == "%" + ("" + "%");
    LeadingPercent("" + "%", s);
    PercentMatchesAll(s);
    assert "" + "%" == "%";
    assert s[0..] == s;
  }
}
