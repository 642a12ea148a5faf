/**
 * `camel_to_snake`: the substitution of "_" for every empty match of the
 * pattern `(?<=[a-z])(?=[A-Z])|(?<=[A-Z])(?=[A-Z][a-z])`, then `lower()`.
 * The character classes of the pattern are ASCII ranges; `lower()` is
 * modelled on ASCII letters only.
 */
module Utils {

  predicate IsUpper(c: char) {
    'A' <= c <= 'Z'
  }

  predicate IsLower(c: char) {
    'a' <= c <= 'z'
  }

  function LowerChar(c: char): (r: char)
    ensures !IsUpper(r)
    ensures IsUpper(c) ==> IsLower(r)
    ensures !IsUpper(c) ==> r == c
  {
    if IsUpper(c) then (c as int + 32) as char else c
  }

  /**
   * `s.lower()`: the result has no upper-case letter left; every upper-case
   * letter is replaced, in place, by the letter 32 code points above it, and
   * every other character is kept.
   */
  function Lower(s: string): (r: string)
    ensures |r| == |s|
    ensures NoUpper(r)
    ensures forall k :: 0 <= k < |s| && !IsUpper(s[k]) ==> r[k] == s[k]
    ensures forall k :: 0 <= k < |s| && IsUpper(s[k]) ==> IsLower(r[k]) && r[k] as int == s[k] as int + 32
  {
    seq(|s|, k requires 0 <= k < |s| => LowerChar(s[k]))
  }

  predicate NoUpper(s: string) {
    forall k :: 0 <= k < |s| ==> !IsUpper(s[k])
  }

  /**
   * The pattern matches the empty string at position `i`: after a lower-case
   * letter and before an upper-case one, or after an upper-case letter and
   * before an upper-case letter followed by a lower-case one.
   */
  predicate Boundary(s: string, i: int) {
    0 < i < |s| &&
    ((IsLower(s[i - 1]) && IsUpper(s[i])) ||
     (IsUpper(s[i - 1]) && IsUpper(s[i]) && i + 1 < |s| && IsLower(s[i + 1])))
  }

  /** The number of boundary positions `j` with `lo <= j < hi`. */
  function Boundaries(s: string, lo: int, hi: int): nat
    decreases hi - lo
  {
    if lo >= hi then 0 else (if Boundary(s, lo) then 1 else 0) + Boundaries(s, lo + 1, hi)
  }

  /** `re_pattern.sub("_", s[i..])` read left to right: "_" before each boundary position, every character kept. */
  function Underscored(s: string, i: nat): string
    decreases |s| - i
  {
    if i >= |s| then [] else (if Boundary(s, i) then "_" else "") + [s[i]] + Underscored(s, i + 1)
  }

  /** `camel_to_snake(s)`. */
  function CamelToSnake(s: string): (r: string)
    ensures NoUpper(r)
  {
    Lower(Underscored(s, 0))
  }

  /**
   * The substitution keeps every character, with exactly one "_" in front of
   * each boundary position: character `k` lands at `k` plus the number of
   * boundaries up to and including `k`.
   */
  lemma {:induction false} UnderscoredAt(s: string, i: nat, k: nat)
    requires i <= k < |s|
    ensures |Underscored(s, i)| == |s| - i + Boundaries(s, i, |s|)
    ensures (k - i) + Boundaries(s, i, k + 1) < |Underscored(s, i)|
    ensures Underscored(s, i)[(k - i) + Boundaries(s, i, k + 1)] == s[k]
    ensures Boundary(s, k) ==> Underscored(s, i)[(k - i) + Boundaries(s, i, k + 1) - 1] == '_'
    decreases |s| - i
  {
    var head := (if Boundary(s, i) then "_" else "") + [s[i]];
    assert Underscored(s, i) == head + Underscored(s, i + 1);
    if k == i {
      UnderscoredLength(s, i + 1);
      assert Boundaries(s, i, k + 1) == |head| - 1;
    } else {
      UnderscoredAt(s, i + 1, k);
      assert Boundaries(s, i, k + 1) == |head| - 1 + Boundaries(s, i + 1, k + 1);
      assert Boundaries(s, i, |s|) == |head| - 1 + Boundaries(s, i + 1, |s|);
    }
  }

  lemma {:induction false} UnderscoredLength(s: string, i: nat)
    ensures |Underscored(s, i)| == (if i <= |s| then |s| - i else 0) + Boundaries(s, i, |s|)
    decreases |s| - i
  {
    if i < |s| {
      UnderscoredLength(s, i + 1);
    }
  }

  /**
   * `camel_to_snake` inserts "_" at every boundary and changes nothing else:
   * its length is the input's plus the number of boundaries, character `k`
   * of the input appears lower-cased at `k + Boundaries(s, 0, k + 1)`, and a
   * "_" stands just before it exactly where `k` is a boundary.
   */
  lemma CamelToSnakeShape(s: string, k: nat)
    requires k < |s|
    ensures |CamelToSnake(s)| == |s| + Boundaries(s, 0, |s|)
    ensures k + Boundaries(s, 0, k + 1) < |CamelToSnake(s)|
    ensures CamelToSnake(s)[k + Boundaries(s, 0, k + 1)] == LowerChar(s[k])
    ensures Boundary(s, k) ==> CamelToSnake(s)[k + Boundaries(s, 0, k + 1) - 1] == '_'
  {
    UnderscoredAt(s, 0, k);
  }

  /** Where `s` has no boundary the substitution returns it as it is. */
  lemma {:induction false} UnderscoredNoBoundary(s: string, i: nat)
    requires i <= |s|
    requires forall j :: i <= j < |s| ==> !Boundary(s, j)
    ensures Underscored(s, i) == s[i..]
    decreases |s| - i
  {
    if i < |s| {
      assert !Boundary(s, i);
      assert Underscored(s, i) == [s[i]] + Underscored(s, i + 1);
      UnderscoredNoBoundary(s, i + 1);
      assert s[i..] == [s[i]] + s[i + 1..];
    }
  }

  /** A string without upper-case letters is returned unchanged. */
  lemma CamelToSnakeNoUpper(s: string)
    requires NoUpper(s)
    ensures CamelToSnake(s) == s
  {
    UnderscoredNoBoundary(s, 0);
    assert Lower(s) == s;
  }

  /** `camel_to_snake` is idempotent. */
  lemma CamelToSnakeIdempotent(s: string)
    ensures CamelToSnake(CamelToSnake(s)) == CamelToSnake(s)
  {
    CamelToSnakeNoUpper(CamelToSnake(s));
  }

  /**
   * An acronym stays together: in the analyst-forecast field name
   * "ProjLTGrowthRate" the boundaries fall before "L", before "G" and before
   * the second "R", so the result is "proj_lt_growth_rate" (objects.py:229).
   */
  lemma CamelToSnakeAcronym(j: int)
    ensures Boundary("ProjLTGrowthRate", j) <==> j == 4 || j == 6 || j == 12
  {
  }

  /**
   * Hence `camel_to_snake("ProjLTGrowthRate")` is "proj_lt_growth_rate", the
   * name the analyst-forecast record declares for that field.
   */
  lemma CamelToSnakeAcronymResult()
    ensures CamelToSnake("ProjLTGrowthRate") == "proj_lt_growth_rate"
  {
    UnderscoredAcronym("ProjLTGrowthRate");
    LowerAcronym();
  }

  /** The substitution on "ProjLTGrowthRate", one stretch between boundaries at a time. */
  lemma UnderscoredAcronym(s: string)
    requires s == "ProjLTGrowthRate"
    ensures Underscored(s, 0) == "Proj_LT_Growth_Rate"
  {
    AcronymStretch(s, 0, 4);
    assert Underscored(s, 0) == s[0..4] + Underscored(s, 4);
    assert s[0..4] == "Proj";
    UnderscoredAcronymFrom4(s);
  }

  /** The substitution from the boundary at 4 to the end of "ProjLTGrowthRate". */
  lemma UnderscoredAcronymFrom4(s: string)
    requires s == "ProjLTGrowthRate"
    ensures Underscored(s, 4) == "_LT_Growth_Rate"
  {
    UnderscoredAcronymFrom6(s);
    AcronymStretch(s, 4, 6);
    assert s[4..6] == "LT";
  }

  lemma UnderscoredAcronymFrom6(s: string)
    requires s == "ProjLTGrowthRate"
    ensures Underscored(s, 6) == "_Growth_Rate"
  {
    UnderscoredAcronymFrom12(s);
    AcronymStretch(s, 6, 12);
    assert s[6..12] == "Growth";
  }

  lemma UnderscoredAcronymFrom12(s: string)
    requires s == "ProjLTGrowthRate"
    ensures Underscored(s, 12) == "_Rate"
  {
    assert Underscored(s, 16) == "";
    AcronymStretch(s, 12, 16);
    assert s[12..16] == "Rate";
  }

  /** Between consecutive boundaries of "ProjLTGrowthRate" the substitution copies the stretch. */
  lemma AcronymStretch(s: string, i: nat, j: nat)
    requires s == "ProjLTGrowthRate"
    requires (i, j) in {(0, 4), (4, 6), (6, 12), (12, 16)}
    ensures Underscored(s, i) == (if i == 0 then "" else "_") + s[i..j] + Underscored(s, j)
  {
    forall m | i <= m < j ensures Boundary(s, m) <==> m == i && i != 0 {
      CamelToSnakeAcronym(m);
    }
    UnderscoredSegment(s, i, j);
  }

  lemma LowerAcronym()
    ensures Lower("Proj_LT_Growth_Rate") == "proj_lt_growth_rate"
  {
    var u := "Proj_LT_Growth_Rate";
    assert forall k | 0 <= k < |u| :: Lower(u)[k] == "proj_lt_growth_rate"[k];
  }

  /**
   * A stretch `s[i..j]` with no boundary after its first position comes out
   * as it is, behind a "_" when `i` itself is a boundary.
   */
  lemma {:induction false} UnderscoredSegment(s: string, i: nat, j: nat)
    requires i < j <= |s|
    requires forall m :: i < m < j ==> !Boundary(s, m)
    ensures Underscored(s, i) == (if Boundary(s, i) then "_" else "") + s[i..j] + Underscored(s, j)
    decreases j - i
  {
    var head := if Boundary(s, i) then "_" else "";
    assert Underscored(s, i) == head + [s[i]] + Underscored(s, i + 1);
    if i + 1 < j {
      UnderscoredSegment(s, i + 1, j);
      assert Underscored(s, i + 1) == s[i + 1..j] + Underscored(s, j);
      assert s[i..j] == [s[i]] + s[i + 1..j];
    } else {
      assert s[i..j] == [s[i]];
    }
  }
}
