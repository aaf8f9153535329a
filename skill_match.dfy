/**
 * The skill query of the assignment step: a moderator qualifies when one of
 * their skills matches, case-insensitively, the regular expression formed by
 * joining the ticket's related skills with "|". Skills are taken as literal
 * text (no regular-expression metacharacters), so the pattern is an
 * alternation of literal fragments and matching is substring search.
 */
module SkillMatch {

  /** ASCII lower-casing of one character. */
  function LowerChar(c: char): char
  {
    if 'A' <= c <= 'Z' then (c as int + 32) as char else c
  }

  /** ASCII lower-casing of a string. */
  function Lower(s: string): string
  {
    seq(|s|, i requires 0 <= i < |s| => LowerChar(s[i]))
  }

  /** `p` occurs somewhere in `s` (what an unanchored regex fragment matches). */
  predicate IsSubstring(p: string, s: string)
    decreases |s|
  {
    p <= s || (s != [] && IsSubstring(p, s[1..]))
  }

  /** `p` occurs in `s` starting at position `k`. */
  predicate OccursAt(p: string, s: string, k: nat)
  {
    k + |p| <= |s| && s[k..k + |p|] == p
  }

  /** The search above finds exactly the strings that occur at some position. */
  lemma {:induction false} IsSubstringIffOccurs(p: string, s: string)
    ensures IsSubstring(p, s) <==> exists k: nat :: OccursAt(p, s, k)
    decreases |s|
  {
    assert OccursAt(p, s, 0) <==> p <= s;
    if p <= s {
    } else if s == [] {
      assert p != [];
    } else {
      IsSubstringIffOccurs(p, s[1..]);
      if IsSubstring(p, s[1..]) {
        var k: nat :| OccursAt(p, s[1..], k);
        assert s[k + 1..k + 1 + |p|] == s[1..][k..k + |p|];
        assert OccursAt(p, s, k + 1);
      }
      if k: nat :| OccursAt(p, s, k) {
        assert k != 0;
        assert s[1..][k - 1..k - 1 + |p|] == s[k..k + |p|];
        assert OccursAt(p, s[1..], k - 1);
      }
    }
  }

  /** A string always occurs at the end of anything it is appended to. */
  lemma {:induction false} SuffixIsSubstring(q: string, p: string)
    ensures IsSubstring(p, q + p)
    decreases |q|
  {
    if q == [] {
      assert q + p == p;
    } else {
      assert (q + p)[1..] == q[1..] + p;
      SuffixIsSubstring(q[1..], p);
    }
  }

  /** Case-insensitive (option "i") occurrence of `fragment` in `text`. */
  predicate ContainsIgnoreCase(text: string, fragment: string)
  {
    IsSubstring(Lower(fragment), Lower(text))
  }

  /** JavaScript `Array.prototype.join(sep)`. */
  function Join(xs: seq<string>, sep: string): string
  {
    if |xs| == 0 then ""
    else if |xs| == 1 then xs[0]
    else xs[0] + sep + Join(xs[1..], sep)
  }

  /** The joined pattern is empty exactly for no skills or one empty skill. */
  lemma JoinEmptyIff(xs: seq<string>)
    ensures Join(xs, "|") == "" <==> |xs| == 0 || (|xs| == 1 && xs[0] == "")
  {
  }

  /**
   * The alternatives of the pattern `Join(related, "|")`: the related skills
   * themselves, or the single empty alternative when the list is empty.
   */
  function Alternatives(related: seq<string>): seq<string>
  {
    if related == [] then [""] else related
  }

  /** The pattern built from `related` matches `skill` (case-insensitively). */
  predicate PatternMatches(related: seq<string>, skill: string)
  {
    exists a :: a in Alternatives(related) && ContainsIgnoreCase(skill, a)
  }

  /** A pattern with an empty alternative matches every skill. */
  lemma EmptyAlternativeMatchesEverything(related: seq<string>, skill: string)
    requires "" in Alternatives(related)
    ensures PatternMatches(related, skill)
  {
  }

  /** An empty joined pattern (no related skills, or one empty skill) matches every skill. */
  lemma EmptyPatternMatchesEverything(related: seq<string>, skill: string)
    requires Join(related, "|") == ""
    ensures PatternMatches(related, skill)
  {
    JoinEmptyIff(related);
    assert Alternatives(related)[0] == "";
    EmptyAlternativeMatchesEverything(related, skill);
  }

  /** Lower-casing twice is lower-casing once. */
  lemma LowerIdempotent(s: string)
    ensures Lower(Lower(s)) == Lower(s)
  {
  }

  /** Matching ignores the case of the moderator's skill. */
  lemma MatchIgnoresSkillCase(related: seq<string>, skill: string)
    ensures PatternMatches(related, skill) <==> PatternMatches(related, Lower(skill))
  {
    LowerIdempotent(skill);
  }

  /**
   * A consequence of substring matching: the related skill "go" selects a
   * moderator whose skill is "MongoDB".
   */
  lemma GoMatchesMongoDB()
    ensures PatternMatches(["go"], "MongoDB")
  {
    assert LowerChar('M') == 'm' && LowerChar('D') == 'd' && LowerChar('B') == 'b';
    assert Lower("MongoDB") == "mongodb";
    assert Lower("go") == "go";
    assert IsSubstring("go", "godb");
    assert IsSubstring("go", "mongodb");
    assert "go" in Alternatives(["go"]);
  }
}
