/** SQLite's `LIKE` operator as the product queries use it: `%` matches any
    run of characters, `_` matches exactly one, every other character
    matches itself up to ASCII case (SQLite's default, no ESCAPE clause). */
module SqlLike {
  import opened Text

  predicate IsWildcard(c: char) {
    c == '%' || c == '_'
  }

  /** `t` carries no LIKE wildcard, so `%t%` asks for plain containment. */
  predicate Literal(t: string) {
    forall i :: 0 <= i < |t| ==> !IsWildcard(t[i])
  }

  /** Lower-casing neither creates nor removes wildcards. */
  lemma LiteralLower(t: string)
    ensures Literal(Lower(t)) <==> Literal(t)
  {
  }

  /** `value LIKE pattern`. */
  predicate Like(value: string, pattern: string)
    decreases |value| + |pattern|
  {
    if |pattern| == 0 then |value| == 0
    else if pattern[0] == '%' then
      Like(value, pattern[1..]) || (|value| > 0 && Like(value[1..], pattern))
    else if |value| == 0 then false
    else
      (pattern[0] == '_' || LowerChar(value[0]) == LowerChar(pattern[0]))
      && Like(value[1..], pattern[1..])
  }

  /** The pattern the source builds from a search word: `f"%{t}%"`. */
  function Surround(t: string): (p: string)
    ensures |p| == |t| + 2 && p[0] == '%' && p[|p| - 1] == '%'
    ensures p[1..|p| - 1] == t
  {
    "%" + t + "%"
  }

  /** A lone `%` matches every value. */
  lemma {:induction false} PercentMatchesAll(value: string)
    ensures Like(value, "%")
    decreases |value|
  {
    assert "%"[1..] == "";
    if |value| > 0 {
      PercentMatchesAll(value[1..]);
    }
  }

  lemma LowerTail(s: string)
    requires |s| > 0
    ensures Lower(s)[1..] == Lower(s[1..])
    ensures Lower(s)[0] == LowerChar(s[0])
  {
  }

  /** `value LIKE 't%'` holds exactly when `t` is a case-folded prefix of `value`. */
  lemma {:induction false} LikePrefix(value: string, t: string)
    requires Literal(t)
    ensures Like(value, t + "%") <==> StartsWith(Lower(value), Lower(t))
    decreases |t|
  {
    if |t| == 0 {
      assert t + "%" == "%";
      PercentMatchesAll(value);
    } else {
      var p := t + "%";
      assert p[0] == t[0] && !IsWildcard(t[0]);
      assert p[1..] == t[1..] + "%";
      LowerTail(t);
      if |value| > 0 {
        LikePrefix(value[1..], t[1..]);
        LowerTail(value);
        var lv, lt := Lower(value), Lower(t);
        assert StartsWith(lv, lt) <==>
          lv[0] == lt[0] && StartsWith(lv[1..], lt[1..]) by {
          if StartsWith(lv, lt) {
            assert lv[1..][..|lt| - 1] == lv[..|lt|][1..];
          }
          if lv[0] == lt[0] && StartsWith(lv[1..], lt[1..]) {
            assert lv[..|lt|] == [lv[0]] + lv[1..][..|lt| - 1];
            assert lt == [lt[0]] + lt[1..];
          }
        }
      }
    }
  }

  /** The source's substring pattern `%t%`, for a wildcard-free `t`, is
      case-insensitive containment. */
  lemma {:induction false} LikeContains(value: string, t: string)
    requires Literal(t)
    ensures Like(value, Surround(t)) <==> Contains(Lower(value), Lower(t))
    decreases |value|
  {
    var p := Surround(t);
    assert p[0] == '%' && p[1..] == t + "%";
    LikePrefix(value, t);
    if |value| > 0 {
      LikeContains(value[1..], t);
      LowerTail(value);
    }
  }

  /** An empty search word gives the pattern `%%`, which every value matches. */
  lemma EmptyWordMatchesAll(value: string)
    ensures Like(value, Surround(""))
  {
    assert Literal("");
    LikeContains(value, "");
    assert StartsWith(Lower(value), Lower(""));
  }
}
