/**
 * Keyword rules as both routers use them: a rule names a result and holds
 * when each of its groups has a keyword occurring in the text; the first
 * rule that holds wins.
 */
module KeywordRules {
  import opened Strings
  import opened Values


  /** `any(word in s for word in words)` */
  predicate AnyIn(words: seq<string>, s: string) {
    exists w <- words :: Contains(s, w)
  }
  /**
   * The rules as data: a rule holds when every group has a keyword that
   * occurs in the text.
   */
  datatype Rule = Rule(pattern: string, groups: seq<seq<string>>)

  predicate Holds(rule: Rule, s: string) {
    forall g <- rule.groups :: AnyIn(g, s)
  }

  /** First match wins. */
  function FirstMatch(rules: seq<Rule>, s: string): Option<string> {
    if |rules| == 0 then None
    else if Holds(rules[0], s) then Some(rules[0].pattern)
    else FirstMatch(rules[1..], s)
  }

  /**
   * What first-match means: a result is the pattern of a rule that holds
   * with no earlier rule holding, and there is no result only when no
   * rule holds.
   */
  lemma {:induction false} FirstMatchSpec(rules: seq<Rule>, s: string)
    ensures FirstMatch(rules, s).None? <==> forall i | 0 <= i < |rules| :: !Holds(rules[i], s)
    ensures FirstMatch(rules, s).Some? ==> exists i | 0 <= i < |rules| ::
      rules[i].pattern == FirstMatch(rules, s).value && Holds(rules[i], s)
      && forall j | 0 <= j < i :: !Holds(rules[j], s)
  {
    if |rules| > 0 && !Holds(rules[0], s) {
      FirstMatchSpec(rules[1..], s);
      if FirstMatch(rules, s).Some? {
        var i :| 0 <= i < |rules[1..]| && rules[1..][i].pattern == FirstMatch(rules, s).value
          && Holds(rules[1..][i], s) && forall j | 0 <= j < i :: !Holds(rules[1..][j], s);
        assert rules[i + 1] == rules[1..][i];
        forall j | 0 <= j < i + 1
          ensures !Holds(rules[j], s)
        {
          if j > 0 {
            assert rules[j] == rules[1..][j - 1];
          }
        }
      } else {
        forall i | 0 <= i < |rules|
          ensures !Holds(rules[i], s)
        {
          if i > 0 {
            assert rules[i] == rules[1..][i - 1];
          }
        }
      }
    }
  }

  lemma AnyInOne(w: string, s: string)
    ensures AnyIn([w], s) == Contains(s, w)
  {
    if Contains(s, w) {
      assert w in [w];
    }
  }

  lemma HoldsOne(p: string, g: seq<string>, s: string)
    ensures Holds(Rule(p, [g]), s) == AnyIn(g, s)
  {
    assert g in [g];
  }

  lemma HoldsTwo(p: string, g: seq<string>, h: seq<string>, s: string)
    ensures Holds(Rule(p, [g, h]), s) == (AnyIn(g, s) && AnyIn(h, s))
  {
    assert g in [g, h] && h in [g, h];
  }
}
