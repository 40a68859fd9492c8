/**
 * The pattern router for common questions: an ordered list of keyword
 * rules over the lower-cased question, each naming one of six fixed
 * SELECT templates, and the execution of a template against the database.
 */
module SimpleQueries {
  import opened Strings
  import opened Values
  import opened TextToSql
  import opened Database
  import opened SqlTemplates
  import opened KeywordRules

  // ---------------------------------------------------------------------
  // Pattern names

  const TopBatsmen: string := "top_batsmen"
  const TopBowlers: string := "top_bowlers"
  const BestStrikeRate: string := "best_strike_rate"
  const BestEconomy: string := "best_economy"
  const AllRounders: string := "all_rounders"
  const ListPlayers: string := "list_players"

  /** The keys of `sql_map`. */
  const Patterns: seq<string> :=
    [TopBatsmen, TopBowlers, BestStrikeRate, BestEconomy, AllRounders, ListPlayers]

  // ---------------------------------------------------------------------
  // Matching

  /** `match_query`: the first rule whose keywords occur in the lower-cased question. */
  function MatchQuery(query: string): (r: Option<string>)
    ensures r.Some? ==> r.value in Patterns
  {
    var q := ToLower(query);
    if AnyIn(["top", "best"], q) && AnyIn(["batsmen", "batsman", "runs"], q) then Some(TopBatsmen)
    else if AnyIn(["top", "best"], q) && AnyIn(["bowlers", "bowler", "wickets"], q) then Some(TopBowlers)
    else if Contains(q, "strike") && Contains(q, "rate") then Some(BestStrikeRate)
    else if Contains(q, "economy") then Some(BestEconomy)
    else if Contains(q, "all") && Contains(q, "round") then Some(AllRounders)
    else if AnyIn(["list", "show all", "all players"], q) then Some(ListPlayers)
    else None
  }

  /** Matching ignores case: upper- or lower-casing the question changes nothing. */
  lemma MatchIgnoresCase(query: string)
    ensures MatchQuery(ToLower(query)) == MatchQuery(query)
    ensures MatchQuery(ToUpper(query)) == MatchQuery(query)
  {
    ToLowerIdempotent(query);
    LowerOfUpper(query);
  }

  /** The rule list `match_query` tries, in its order. */
  const Rules: seq<Rule> := [
    Rule(TopBatsmen, [["top", "best"], ["batsmen", "batsman", "runs"]]),
    Rule(TopBowlers, [["top", "best"], ["bowlers", "bowler", "wickets"]]),
    Rule(BestStrikeRate, [["strike"], ["rate"]]),
    Rule(BestEconomy, [["economy"]]),
    Rule(AllRounders, [["all"], ["round"]]),
    Rule(ListPlayers, [["list", "show all", "all players"]])
  ]

  /** `match_query` is the first-match rule list applied to the lower-cased question. */
  lemma MatchQueryFollowsRules(query: string)
    ensures MatchQuery(query) == FirstMatch(Rules, ToLower(query))
  {
    var q := ToLower(query);
    var r := Rules;
    HoldsTwo(TopBatsmen, ["top", "best"], ["batsmen", "batsman", "runs"], q);
    HoldsTwo(TopBowlers, ["top", "best"], ["bowlers", "bowler", "wickets"], q);
    HoldsTwo(BestStrikeRate, ["strike"], ["rate"], q);
    AnyInOne("strike", q);
    AnyInOne("rate", q);
    HoldsOne(BestEconomy, ["economy"], q);
    AnyInOne("economy", q);
    HoldsTwo(AllRounders, ["all"], ["round"], q);
    AnyInOne("all", q);
    AnyInOne("round", q);
    HoldsOne(ListPlayers, ["list", "show all", "all players"], q);
    assert FirstMatch(r[5..], q) == if Holds(r[5], q) then Some(ListPlayers) else None by {
      assert r[5..][1..] == [];
    }
    assert FirstMatch(r[4..], q) == if Holds(r[4], q) then Some(AllRounders) else FirstMatch(r[5..], q) by {
      assert r[4..][1..] == r[5..];
    }
    assert FirstMatch(r[3..], q) == if Holds(r[3], q) then Some(BestEconomy) else FirstMatch(r[4..], q) by {
      assert r[3..][1..] == r[4..];
    }
    assert FirstMatch(r[2..], q) == if Holds(r[2], q) then Some(BestStrikeRate) else FirstMatch(r[3..], q) by {
      assert r[2..][1..] == r[3..];
    }
    assert FirstMatch(r[1..], q) == if Holds(r[1], q) then Some(TopBowlers) else FirstMatch(r[2..], q) by {
      assert r[1..][1..] == r[2..];
    }
  }

  lemma ContainsItself(k: string)
    ensures Contains(k, k)
  {
    assert OccursAt(k, k, 0);
  }

  /** "best strike rate batsmen" goes to the batsmen rule, which comes first. */
  lemma StrikeRateQuestionGoesToBatsmen(query: string)
    requires query == "best strike rate batsmen"
    ensures MatchQuery(query) == Some(TopBatsmen)
  {
    var head, mid, tail := "best", " strike rate ", "batsmen";
    assert query == head + mid + tail;
    assert ToLower(query) == query by { ToLowerNoUpper(query); }
    assert Contains(query, head) by {
      ContainsItself(head);
      ContainsInPart(head, mid, head);
      ContainsInPart(head + mid, tail, head);
    }
    assert Contains(query, tail) by {
      ContainsItself(tail);
      ContainsInPart(head + mid, tail, tail);
    }
    BatsmenWordsWin(query, ToLower(query));
  }

  /** A question naming "best" and "batsmen" goes to the batsmen rule. */
  lemma BatsmenWordsWin(query: string, q: string)
    requires q == ToLower(query) && Contains(q, "best") && Contains(q, "batsmen")
    ensures MatchQuery(query) == Some(TopBatsmen)
  {
    assert "best" in ["top", "best"];
    assert "batsmen" in ["batsmen", "batsman", "runs"];
  }

  /** `sql_map`, as templates. */
  function TemplateOf(pattern: string): (t: Option<Template>)
    ensures t.Some? <==> pattern in Patterns
  {
    if pattern == TopBatsmen then Some(TopBatsmenSql)
    else if pattern == TopBowlers then Some(TopBowlersSql)
    else if pattern == BestStrikeRate then Some(BestStrikeRateSql)
    else if pattern == BestEconomy then Some(BestEconomySql)
    else if pattern == AllRounders then Some(AllRoundersSql)
    else if pattern == ListPlayers then Some(ListPlayersSql)
    else None
  }

  /** `sql_map.get(pattern)` */
  function SqlMap(pattern: string): Option<string> {
    match TemplateOf(pattern)
    case None => None
    case Some(t) => Some(Text(t))
  }

  /** Every pattern `match_query` returns has a template, so it is never the "no SQL" case. */
  lemma MatchedPatternHasSql(query: string)
    ensures MatchQuery(query).Some? ==> SqlMap(MatchQuery(query).value).Some?
  {
  }

  /** Every template passes `TextToSQL._is_safe_query`. */
  lemma TemplatesPassGate(pattern: string)
    requires SqlMap(pattern).Some?
    ensures IsSafeQuery(SqlMap(pattern).value)
  {
    var t := TemplateOf(pattern).value;
    if pattern == TopBatsmen {
      TopBatsmenWordsFree();
    } else if pattern == TopBowlers {
      TopBowlersWordsFree();
    } else if pattern == BestStrikeRate {
      BestStrikeRateWordsFree();
    } else if pattern == BestEconomy {
      BestEconomyWordsFree();
    } else if pattern == AllRounders {
      AllRoundersWordsFree();
    } else {
      ListPlayersWordsFree();
    }
    TextSafe(t);
  }

  /** Every template asks for at most 20 rows: LIMIT 5, 10 or 20 closes its text. */
  lemma TemplateLimits(pattern: string)
    requires SqlMap(pattern).Some?
    ensures var n := TemplateOf(pattern).value.limit;
      (n == 5 || n == 10 || n == 20)
      && EndsWith(SqlMap(pattern).value, LineBreak + LimitText(n) + Closing)
  {
    TextEndsWithLimit(TemplateOf(pattern).value);
  }

  // ---------------------------------------------------------------------
  // Execution

  /** Running a template after gated queries leaves only gated queries run. */
  lemma TemplateRunKeepsSafe(pattern: string, before: seq<string>)
    requires SqlMap(pattern).Some? && forall q <- before :: IsSafeQuery(q)
    ensures forall q <- before + [SqlMap(pattern).value] :: IsSafeQuery(q)
  {
    TemplatesPassGate(pattern);
  }

  /**
   * `execute_query`: an unknown pattern gives None without touching the
   * database; a failed execution gives None; otherwise the rows and their
   * count.
   */
  method ExecuteQuery(pattern: string, db: Db) returns (r: Option<QueryResult>)
    modifies db
    ensures SqlMap(pattern).None? ==> r.None? && db.executed == old(db.executed)
    ensures SqlMap(pattern).Some? ==> db.executed == old(db.executed) + [SqlMap(pattern).value]
    ensures SqlMap(pattern).Some? ==> (r.None? <==> db.answer(SqlMap(pattern).value).None?)
    ensures r.Some? ==>
      (r.value.success && r.value.error.None? && r.value.sql == SqlMap(pattern)
       && r.value.data == db.answer(SqlMap(pattern).value)
       && r.value.count == Some(|r.value.data.value|))
    ensures old(ExecutedSafe(db)) ==> ExecutedSafe(db)
  {
    var sql := SqlMap(pattern);
    if sql.None? {
      return None;
    }
    var rows := db.Execute(sql.value);
    if old(ExecutedSafe(db)) {
      TemplateRunKeepsSafe(pattern, old(db.executed));
    }
    if rows.None? {
      return None;
    }
    return Some(QueryResult(true, None, sql, rows, Some(|rows.value|)));
  }
}
