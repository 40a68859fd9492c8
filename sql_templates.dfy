/**
 * The six fixed SELECT statements of the pattern router, as lines of
 * words, with the proof that each passes the SQL safety gate and ends
 * with its LIMIT clause.
 */
module SqlTemplates {
  import opened Strings
  import opened Values
  import opened TextToSql

  // ---------------------------------------------------------------------
  // Templates

  /** The indentation inside the triple-quoted templates. */
  const LineBreak: string := "\n                "
  const Closing: string := "\n            "

  /** A template: its lines of words with the LIMIT line kept apart. */
  datatype Template = Template(lines: seq<seq<string>>, limit: nat)

  function LineTexts(lines: seq<seq<string>>): (r: seq<string>)
    ensures |r| == |lines|
    ensures forall i | 0 <= i < |lines| :: r[i] == Join(" ", lines[i])
  {
    if |lines| == 0 then [] else [Join(" ", lines[0])] + LineTexts(lines[1..])
  }

  /**
   * The text of the triple-quoted string: a newline, each line indented,
   * the LIMIT line last, and the indentation of the closing quotes.
   */
  function Text(t: Template): string {
    LineBreak + Join(LineBreak, LineTexts(t.lines + [LimitLine(t.limit)])) + Closing
  }

  // The lines of the templates; several templates share a line.
  const SelectTopBatsmen: seq<string> :=
    ["SELECT", "p.name,", "b.runs,", "b.average,", "b.strike_rate,", "b.hundreds,", "b.fifties"]
  const SelectTopBowlers: seq<string> := ["SELECT", "p.name,", "bw.wickets,", "bw.average,", "bw.economy"]
  const SelectStrikeRate: seq<string> := ["SELECT", "p.name,", "b.strike_rate,", "b.runs,", "b.average"]
  const SelectEconomy: seq<string> := ["SELECT", "p.name,", "bw.economy,", "bw.wickets,", "bw.average"]
  const SelectAllRounders: seq<string> := ["SELECT", "p.name,", "p.role,", "b.runs,", "bw.wickets"]
  const SelectPlayers: seq<string> := ["SELECT", "name,", "role,", "country"]
  const FromPlayersP: seq<string> := ["FROM", "players", "p"]
  const FromPlayers: seq<string> := ["FROM", "players"]
  const InnerJoinBatting: seq<string> := ["INNER", "JOIN", "batting_stats", "b", "ON", "p.id", "=", "b.player_id"]
  const InnerJoinBowling: seq<string> := ["INNER", "JOIN", "bowling_stats", "bw", "ON", "p.id", "=", "bw.player_id"]
  const LeftJoinBatting: seq<string> :=
    ["LEFT", "JOIN", "batting_stats", "b", "ON", "p.id", "=", "b.player_id", "AND", "b.format", "=", "'IPL'"]
  const LeftJoinBowling: seq<string> :=
    ["LEFT", "JOIN", "bowling_stats", "bw", "ON", "p.id", "=", "bw.player_id", "AND", "bw.format", "=", "'IPL'"]
  const WhereBattingIpl: seq<string> := ["WHERE", "b.format", "=", "'IPL'"]
  const WhereBowlingIpl: seq<string> := ["WHERE", "bw.format", "=", "'IPL'"]
  const WhereBattingIplMatches: seq<string> := ["WHERE", "b.format", "=", "'IPL'", "AND", "b.matches", ">", "10"]
  const WhereBowlingIplWickets: seq<string> := ["WHERE", "bw.format", "=", "'IPL'", "AND", "bw.wickets", ">", "10"]
  const WhereAllRounder: seq<string> := ["WHERE", "p.role", "=", "'All-Rounder'"]
  const OrderByRuns: seq<string> := ["ORDER", "BY", "b.runs", "DESC"]
  const OrderByWickets: seq<string> := ["ORDER", "BY", "bw.wickets", "DESC"]
  const OrderByStrikeRate: seq<string> := ["ORDER", "BY", "b.strike_rate", "DESC"]
  const OrderByEconomy: seq<string> := ["ORDER", "BY", "bw.economy", "ASC"]
  const OrderByName: seq<string> := ["ORDER", "BY", "name"]

  const TopBatsmenSql: Template :=
    Template([SelectTopBatsmen, FromPlayersP, InnerJoinBatting, WhereBattingIpl, OrderByRuns], 5)
  const TopBowlersSql: Template :=
    Template([SelectTopBowlers, FromPlayersP, InnerJoinBowling, WhereBowlingIpl, OrderByWickets], 5)
  const BestStrikeRateSql: Template :=
    Template([SelectStrikeRate, FromPlayersP, InnerJoinBatting, WhereBattingIplMatches, OrderByStrikeRate], 5)
  const BestEconomySql: Template :=
    Template([SelectEconomy, FromPlayersP, InnerJoinBowling, WhereBowlingIplWickets, OrderByEconomy], 5)
  const AllRoundersSql: Template :=
    Template([SelectAllRounders, FromPlayersP, LeftJoinBatting, LeftJoinBowling, WhereAllRounder], 10)
  const ListPlayersSql: Template := Template([SelectPlayers, FromPlayers, OrderByName], 20)

  // ---------------------------------------------------------------------
  // Every template passes the safety gate

  /** Every word of every line is keyword-free. */
  predicate WordsFree(lines: seq<seq<string>>) {
    forall l <- lines :: LineFree(l)
  }

  /** The LIMIT line closing every template. */
  function LimitLine(n: nat): seq<string> {
    ["LIMIT", IntToString(n) + ";"]
  }

  /** The lines of the text, the LIMIT line last. */
  function AllLines(t: Template): (r: seq<seq<string>>)
    ensures |r| == |t.lines| + 1 && r[|t.lines|] == LimitLine(t.limit)
    ensures forall i | 0 <= i < |t.lines| :: r[i] == t.lines[i]
  {
    t.lines + [LimitLine(t.limit)]
  }

  /** The body of the text: the lines joined by line breaks. */
  function Body(t: Template): string {
    Join(LineBreak, LineTexts(AllLines(t)))
  }

  lemma TextIsBody(t: Template)
    ensures Text(t) == LineBreak + Body(t) + Closing
  {
  }

  lemma LimitLineFree(n: nat)
    ensures LineFree(LimitLine(n))
  {
    LacksDE("LIMIT");
    LacksDR(IntToString(n) + ";");
  }

  /** Keyword-free words give keyword-free line texts. */
  lemma LineTextsFree(lines: seq<seq<string>>)
    requires WordsFree(lines)
    ensures forall l <- LineTexts(lines) :: NoForbidden(l)
  {
    var texts := LineTexts(lines);
    forall i | 0 <= i < |texts|
      ensures NoForbidden(texts[i])
    {
      assert LineFree(lines[i]);
      JoinNoForbidden(" ", lines[i]);
    }
  }

  lemma BodyFree(t: Template)
    requires WordsFree(t.lines)
    ensures NoForbidden(Body(t))
  {
    var all := AllLines(t);
    assert WordsFree(all) by {
      LimitLineFree(t.limit);
      forall i | 0 <= i < |all|
        ensures LineFree(all[i])
      {
        if i < |t.lines| {
          assert all[i] == t.lines[i];
        }
      }
    }
    LineTextsFree(all);
    JoinNoForbidden(LineBreak, LineTexts(all));
  }

  /** No forbidden keyword occurs in a template whose words are keyword-free. */
  lemma TextFree(t: Template)
    requires WordsFree(t.lines)
    ensures NoForbidden(Text(t))
  {
    var body := Body(t);
    BodyFree(t);
    assert NoForbidden("") by { ShortIsFree(""); }
    NoForbiddenAcross("", LineBreak, body);
    assert "" + LineBreak + body == LineBreak + body;
    NoForbiddenAcross(LineBreak + body, Closing, "");
    assert LineBreak + body + Closing + "" == Text(t);
  }

  /**
   * Upper-cased and stripped, a text made of whitespace and then something
   * starting with SELECT starts with SELECT.
   */
  lemma StrippedStartsWithSelect(ws: string, rest: string, text: string)
    requires forall c <- ws :: IsSpace(c)
    requires StartsWith(rest, "SELECT") && text == ws + rest
    ensures StartsWith(Strip(ToUpper(text)), "SELECT")
  {
    ToUpperPrefix(rest, "SELECT");
    assert ToUpper("SELECT") == "SELECT";
    LStripNoSpace(ToUpper(rest));
    RStripKeepsPrefix(ToUpper(rest), "SELECT");
    SpacePrefixStripped(ws, rest);
  }

  lemma LineBreakIsSpace()
    ensures |LineBreak| > 0 && forall c <- LineBreak :: IsSpace(c)
  {
  }

  /** Lines whose first word is SELECT, framed by whitespace in front, start with SELECT. */
  lemma FramedStartsWithSelect(ws: string, sep: string, closing: string, lines: seq<seq<string>>)
    requires forall c <- ws :: IsSpace(c)
    requires |lines| > 0 && |lines[0]| > 0 && lines[0][0] == "SELECT"
    ensures StartsWith(Strip(ToUpper(ws + Join(sep, LineTexts(lines)) + closing)), "SELECT")
  {
    var body := Join(sep, LineTexts(lines));
    JoinedStartsWithSelect(sep, lines);
    var rest := body + closing;
    StartsWithExtended(body, closing, "SELECT");
    AppendAssoc(ws, body, closing);
    StrippedStartsWithSelect(ws, rest, ws + body + closing);
  }

  /** Lines whose first word is SELECT join to a text starting with SELECT. */
  lemma JoinedStartsWithSelect(sep: string, lines: seq<seq<string>>)
    requires |lines| > 0 && |lines[0]| > 0 && lines[0][0] == "SELECT"
    ensures StartsWith(Join(sep, LineTexts(lines)), "SELECT")
  {
    var texts := LineTexts(lines);
    assert texts[0] == Join(" ", lines[0]);
    JoinStartsWith(" ", lines[0]);
    JoinStartsWith(sep, texts);
    StartsWithTrans(Join(sep, texts), texts[0], "SELECT");
  }

  /** A prefix stays a prefix when the text is extended. */
  lemma StartsWithExtended(a: string, b: string, p: string)
    requires StartsWith(a, p)
    ensures StartsWith(a + b, p)
  {
    assert (a + b)[..|p|] == a[..|p|];
  }

  /** The text, stripped and upper-cased, starts with the SELECT of its first line. */
  lemma TextStartsWithSelect(t: Template)
    requires |t.lines| > 0 && |t.lines[0]| > 0 && t.lines[0][0] == "SELECT"
    ensures StartsWith(Strip(ToUpper(Text(t))), "SELECT")
  {
    LineBreakIsSpace();
    FramedStartsWithSelect(LineBreak, LineBreak, Closing, t.lines + [LimitLine(t.limit)]);
  }

  /** A template whose words are keyword-free and which starts with SELECT passes the gate. */
  lemma TextSafe(t: Template)
    requires WordsFree(t.lines)
    requires |t.lines| > 0 && |t.lines[0]| > 0 && t.lines[0][0] == "SELECT"
    ensures IsSafeQuery(Text(t))
  {
    TextFree(t);
    TextStartsWithSelect(t);
  }

  /** Every word of a line is keyword-free. */
  predicate LineFree(line: seq<string>) {
    forall w <- line :: NoForbidden(w)
  }

  // Each word of the templates, by the letters of the keywords it lacks.
  lemma SelectFree() ensures NoForbidden("SELECT") { LacksDR("SELECT"); }
  lemma PNameCommaFree() ensures NoForbidden("p.name,") { LacksDR("p.name,"); }
  lemma BRunsCommaFree() ensures NoForbidden("b.runs,") { LacksDE("b.runs,"); }
  lemma BAverageCommaFree() ensures NoForbidden("b.average,") { LacksDT("b.average,"); }
  lemma BStrikeRateCommaFree() ensures NoForbidden("b.strike_rate,") { LacksDLNC("b.strike_rate,"); }
  lemma BHundredsCommaFree() ensures NoForbidden("b.hundreds,") { LacksOT("b.hundreds,"); }
  lemma BFiftiesFree() ensures NoForbidden("b.fifties") { LacksDR("b.fifties"); }
  lemma BwWicketsCommaFree() ensures NoForbidden("bw.wickets,") { LacksDR("bw.wickets,"); }
  lemma BwAverageCommaFree() ensures NoForbidden("bw.average,") { LacksDT("bw.average,"); }
  lemma BwEconomyFree() ensures NoForbidden("bw.economy") { LacksDR("bw.economy"); }
  lemma BAverageFree() ensures NoForbidden("b.average") { LacksDT("b.average"); }
  lemma BwEconomyCommaFree() ensures NoForbidden("bw.economy,") { LacksDR("bw.economy,"); }
  lemma BwAverageFree() ensures NoForbidden("bw.average") { LacksDT("bw.average"); }
  lemma PRoleCommaFree() ensures NoForbidden("p.role,") { LacksDT("p.role,"); }
  lemma BwWicketsFree() ensures NoForbidden("bw.wickets") { LacksDR("bw.wickets"); }
  lemma NameCommaFree() ensures NoForbidden("name,") { LacksDR("name,"); }
  lemma RoleCommaFree() ensures NoForbidden("role,") { LacksDT("role,"); }
  lemma CountryFree() ensures NoForbidden("country") { LacksDE("country"); }
  lemma FromFree() ensures NoForbidden("FROM") { LacksDE("FROM"); }
  lemma PlayersFree() ensures NoForbidden("players") { LacksDT("players"); }
  lemma InnerFree() ensures NoForbidden("INNER") { LacksDT("INNER"); }
  lemma JoinFree() ensures NoForbidden("JOIN") { LacksDE("JOIN"); }
  lemma BattingStatsFree() ensures NoForbidden("batting_stats") { LacksDE("batting_stats"); }
  lemma PIdFree() ensures NoForbidden("p.id") { LacksEO("p.id"); }
  lemma BPlayerIdFree() ensures NoForbidden("b.player_id") { LacksOT("b.player_id"); }
  lemma BowlingStatsFree() ensures NoForbidden("bowling_stats") { LacksDE("bowling_stats"); }
  lemma BwPlayerIdFree() ensures NoForbidden("bw.player_id") { LacksOT("bw.player_id"); }
  lemma LeftFree() ensures NoForbidden("LEFT") { LacksDR("LEFT"); }
  lemma BFormatFree() ensures NoForbidden("b.format") { LacksDE("b.format"); }
  lemma IplQuotedFree() ensures NoForbidden("'IPL'") { LacksDE("'IPL'"); }
  lemma BwFormatFree() ensures NoForbidden("bw.format") { LacksDE("bw.format"); }
  lemma WhereFree() ensures NoForbidden("WHERE") { LacksDT("WHERE"); }
  lemma BMatchesFree() ensures NoForbidden("b.matches") { LacksDR("b.matches"); }
  lemma PRoleFree() ensures NoForbidden("p.role") { LacksDT("p.role"); }
  lemma AllRounderQuotedFree() ensures NoForbidden("'All-Rounder'") { LacksPT("'All-Rounder'"); }
  lemma OrderFree() ensures NoForbidden("ORDER") { LacksPT("ORDER"); }
  lemma BRunsFree() ensures NoForbidden("b.runs") { LacksDE("b.runs"); }
  lemma DescFree() ensures NoForbidden("DESC") { LacksOT("DESC"); }
  lemma BStrikeRateFree() ensures NoForbidden("b.strike_rate") { LacksDLNC("b.strike_rate"); }
  lemma NameFree() ensures NoForbidden("name") { LacksDR("name"); }

  lemma SelectTopBatsmenFree()
    ensures LineFree(SelectTopBatsmen)
  {
    SelectFree(); PNameCommaFree(); BRunsCommaFree(); BAverageCommaFree(); BStrikeRateCommaFree();
    BHundredsCommaFree(); BFiftiesFree();
  }

  lemma SelectTopBowlersFree()
    ensures LineFree(SelectTopBowlers)
  {
    SelectFree(); PNameCommaFree(); BwWicketsCommaFree(); BwAverageCommaFree(); BwEconomyFree();
  }

  lemma SelectStrikeRateFree()
    ensures LineFree(SelectStrikeRate)
  {
    SelectFree(); PNameCommaFree(); BStrikeRateCommaFree(); BRunsCommaFree(); BAverageFree();
  }

  lemma SelectEconomyFree()
    ensures LineFree(SelectEconomy)
  {
    SelectFree(); PNameCommaFree(); BwEconomyCommaFree(); BwWicketsCommaFree(); BwAverageFree();
  }

  lemma SelectAllRoundersFree()
    ensures LineFree(SelectAllRounders)
  {
    SelectFree(); PNameCommaFree(); PRoleCommaFree(); BRunsCommaFree(); BwWicketsFree();
  }

  lemma SelectPlayersFree()
    ensures LineFree(SelectPlayers)
  {
    SelectFree(); NameCommaFree(); RoleCommaFree(); CountryFree();
  }

  lemma FromPlayersPFree()
    ensures LineFree(FromPlayersP)
  {
    FromFree(); PlayersFree(); ShortIsFree("p");
  }

  lemma FromPlayersFree()
    ensures LineFree(FromPlayers)
  {
    FromFree(); PlayersFree();
  }

  lemma InnerJoinBattingFree()
    ensures LineFree(InnerJoinBatting)
  {
    InnerFree(); JoinFree(); BattingStatsFree(); ShortIsFree("b"); ShortIsFree("ON"); PIdFree();
    ShortIsFree("="); BPlayerIdFree();
  }

  lemma InnerJoinBowlingFree()
    ensures LineFree(InnerJoinBowling)
  {
    InnerFree(); JoinFree(); BowlingStatsFree(); ShortIsFree("bw"); ShortIsFree("ON"); PIdFree();
    ShortIsFree("="); BwPlayerIdFree();
  }

  lemma LeftJoinBattingFree()
    ensures LineFree(LeftJoinBatting)
  {
    LeftFree(); JoinFree(); BattingStatsFree(); ShortIsFree("b"); ShortIsFree("ON"); PIdFree();
    ShortIsFree("="); BPlayerIdFree(); ShortIsFree("AND"); BFormatFree(); IplQuotedFree();
  }

  lemma LeftJoinBowlingFree()
    ensures LineFree(LeftJoinBowling)
  {
    LeftFree(); JoinFree(); BowlingStatsFree(); ShortIsFree("bw"); ShortIsFree("ON"); PIdFree();
    ShortIsFree("="); BwPlayerIdFree(); ShortIsFree("AND"); BwFormatFree(); IplQuotedFree();
  }

  lemma WhereBattingIplFree()
    ensures LineFree(WhereBattingIpl)
  {
    WhereFree(); BFormatFree(); ShortIsFree("="); IplQuotedFree();
  }

  lemma WhereBowlingIplFree()
    ensures LineFree(WhereBowlingIpl)
  {
    WhereFree(); BwFormatFree(); ShortIsFree("="); IplQuotedFree();
  }

  lemma WhereBattingIplMatchesFree()
    ensures LineFree(WhereBattingIplMatches)
  {
    WhereFree(); BFormatFree(); ShortIsFree("="); IplQuotedFree(); ShortIsFree("AND");
    BMatchesFree(); ShortIsFree(">"); ShortIsFree("10");
  }

  lemma WhereBowlingIplWicketsFree()
    ensures LineFree(WhereBowlingIplWickets)
  {
    WhereFree(); BwFormatFree(); ShortIsFree("="); IplQuotedFree(); ShortIsFree("AND");
    BwWicketsFree(); ShortIsFree(">"); ShortIsFree("10");
  }

  lemma WhereAllRounderFree()
    ensures LineFree(WhereAllRounder)
  {
    WhereFree(); PRoleFree(); ShortIsFree("="); AllRounderQuotedFree();
  }

  lemma OrderByRunsFree()
    ensures LineFree(OrderByRuns)
  {
    OrderFree(); ShortIsFree("BY"); BRunsFree(); DescFree();
  }

  lemma OrderByWicketsFree()
    ensures LineFree(OrderByWickets)
  {
    OrderFree(); ShortIsFree("BY"); BwWicketsFree(); DescFree();
  }

  lemma OrderByStrikeRateFree()
    ensures LineFree(OrderByStrikeRate)
  {
    OrderFree(); ShortIsFree("BY"); BStrikeRateFree(); DescFree();
  }

  lemma OrderByEconomyFree()
    ensures LineFree(OrderByEconomy)
  {
    OrderFree(); ShortIsFree("BY"); BwEconomyFree(); ShortIsFree("ASC");
  }

  lemma OrderByNameFree()
    ensures LineFree(OrderByName)
  {
    OrderFree(); ShortIsFree("BY"); NameFree();
  }

  lemma TopBatsmenWordsFree()
    ensures WordsFree(TopBatsmenSql.lines)
  {
    SelectTopBatsmenFree(); FromPlayersPFree(); InnerJoinBattingFree(); WhereBattingIplFree(); OrderByRunsFree();
  }

  lemma TopBowlersWordsFree()
    ensures WordsFree(TopBowlersSql.lines)
  {
    SelectTopBowlersFree(); FromPlayersPFree(); InnerJoinBowlingFree(); WhereBowlingIplFree(); OrderByWicketsFree();
  }

  lemma BestStrikeRateWordsFree()
    ensures WordsFree(BestStrikeRateSql.lines)
  {
    SelectStrikeRateFree(); FromPlayersPFree(); InnerJoinBattingFree(); WhereBattingIplMatchesFree(); OrderByStrikeRateFree();
  }

  lemma BestEconomyWordsFree()
    ensures WordsFree(BestEconomySql.lines)
  {
    SelectEconomyFree(); FromPlayersPFree(); InnerJoinBowlingFree(); WhereBowlingIplWicketsFree(); OrderByEconomyFree();
  }

  lemma AllRoundersWordsFree()
    ensures WordsFree(AllRoundersSql.lines)
  {
    SelectAllRoundersFree(); FromPlayersPFree(); LeftJoinBattingFree(); LeftJoinBowlingFree(); WhereAllRounderFree();
  }

  lemma ListPlayersWordsFree()
    ensures WordsFree(ListPlayersSql.lines)
  {
    SelectPlayersFree(); FromPlayersFree(); OrderByNameFree();
  }

  // ---------------------------------------------------------------------
  // The LIMIT line

  /** Joined lines between an opening and a closing end with the last line and the closing. */
  lemma FramedEndsWith(sep: string, closing: string, lines: seq<seq<string>>, last: seq<string>)
    ensures EndsWith(sep + Join(sep, LineTexts(lines + [last])) + closing, sep + Join(" ", last) + closing)
  {
    var texts := LineTexts(lines + [last]);
    assert texts[|texts| - 1] == Join(" ", last);
    SepJoinEndsWith(sep, texts);
    EndsWithAppend(sep + Join(sep, texts), sep + texts[|texts| - 1], closing);
  }

  /** The text of the LIMIT line. */
  function LimitText(n: nat): (r: string)
    ensures r == Join(" ", LimitLine(n))
  {
    "LIMIT " + IntToString(n) + ";"
  }

  /** A template's text ends with its LIMIT line and the closing indentation. */
  lemma TextEndsWithLimit(t: Template)
    ensures EndsWith(Text(t), LineBreak + LimitText(t.limit) + Closing)
  {
    FramedEndsWith(LineBreak, Closing, t.lines, LimitLine(t.limit));
  }
}
