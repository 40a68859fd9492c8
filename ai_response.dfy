/**
 * The response generator: the keyword intent classifier, the formatters
 * that turn results into WhatsApp text (with their row and entry limits),
 * the model-written fallback with its length caps, and the dispatch on the
 * response type. Number formatting and the text of Python's `str()` for
 * floats, lists and dicts are oracles.
 */
module AiResponse {
  import opened Strings
  import opened Values
  import opened KeywordRules

  // ---------------------------------------------------------------------
  // Intent detection

  const PlayerStats: string := "player_stats"
  const Valuation: string := "valuation"
  const Comparison: string := "comparison"
  const HiddenGems: string := "hidden_gems"
  const Ranking: string := "ranking"
  const GeneralQuery: string := "general_query"

  const Intents: seq<string> := [PlayerStats, Valuation, Comparison, HiddenGems, Ranking, GeneralQuery]

  /** The dict `detect_intent` returns: the intent and its `type`. */
  datatype IntentData = IntentData(intent: string, kind: string)

  const StatsWords: seq<string> := ["stats", "profile", "about", "tell me"]
  const ValueWords: seq<string> := ["price", "value", "worth", "cost", "valuation"]
  const CompareWords: seq<string> := ["compare", "vs", "versus", "better"]
  const GemWords: seq<string> := ["hidden gem", "underrated", "bargain", "cheap"]
  const RankWords: seq<string> := ["top", "best", "highest", "most", "list"]

  /** The `type` that goes with each intent. */
  function KindOf(intent: string): string {
    if intent == PlayerStats || intent == HiddenGems then "search"
    else if intent == Valuation || intent == Comparison then "analysis"
    else "query"
  }

  /** `detect_intent`: keyword groups tried in priority order on the lower-cased message. */
  function DetectIntent(message: string): (r: IntentData)
    ensures r.intent in Intents
    ensures r.kind == KindOf(r.intent)
  {
    var m := ToLower(message);
    if AnyIn(StatsWords, m) then IntentData(PlayerStats, "search")
    else if AnyIn(ValueWords, m) then IntentData(Valuation, "analysis")
    else if AnyIn(CompareWords, m) then IntentData(Comparison, "analysis")
    else if AnyIn(GemWords, m) then IntentData(HiddenGems, "search")
    else if AnyIn(RankWords, m) then IntentData(Ranking, "query")
    else IntentData(GeneralQuery, "query")
  }

  /** The classifier as a rule list; general_query is what is left when none holds. */
  const IntentRules: seq<Rule> := [
    Rule(PlayerStats, [StatsWords]),
    Rule(Valuation, [ValueWords]),
    Rule(Comparison, [CompareWords]),
    Rule(HiddenGems, [GemWords]),
    Rule(Ranking, [RankWords])
  ]

  /** `detect_intent` is first-match over the rule list, defaulting to general_query. */
  lemma DetectIntentFollowsRules(message: string)
    ensures DetectIntent(message).intent == FirstMatch(IntentRules, ToLower(message)).GetOr(GeneralQuery)
  {
    var m := ToLower(message);
    var r := IntentRules;
    HoldsOne(PlayerStats, StatsWords, m);
    HoldsOne(Valuation, ValueWords, m);
    HoldsOne(Comparison, CompareWords, m);
    HoldsOne(HiddenGems, GemWords, m);
    HoldsOne(Ranking, RankWords, m);
    assert FirstMatch(r[4..], m) == if Holds(r[4], m) then Some(Ranking) else None by {
      assert r[4..][1..] == [];
    }
    assert FirstMatch(r[3..], m) == if Holds(r[3], m) then Some(HiddenGems) else FirstMatch(r[4..], m) by {
      assert r[3..][1..] == r[4..];
    }
    assert FirstMatch(r[2..], m) == if Holds(r[2], m) then Some(Comparison) else FirstMatch(r[3..], m) by {
      assert r[2..][1..] == r[3..];
    }
    assert FirstMatch(r[1..], m) == if Holds(r[1], m) then Some(Valuation) else FirstMatch(r[2..], m) by {
      assert r[1..][1..] == r[2..];
    }
  }

  /** Classification ignores case. */
  lemma DetectIgnoresCase(message: string)
    ensures DetectIntent(ToLower(message)) == DetectIntent(message)
    ensures DetectIntent(ToUpper(message)) == DetectIntent(message)
  {
    ToLowerIdempotent(message);
    LowerOfUpper(message);
  }

  /** A message with no keyword of any group is a general query. */
  lemma NoKeywordIsGeneral(message: string)
    requires forall g <- [StatsWords, ValueWords, CompareWords, GemWords, RankWords] :: !AnyIn(g, ToLower(message))
    ensures DetectIntent(message) == IntentData(GeneralQuery, "query")
  {
    var m := ToLower(message);
    assert !AnyIn(StatsWords, m) && !AnyIn(ValueWords, m) && !AnyIn(CompareWords, m);
    assert !AnyIn(GemWords, m) && !AnyIn(RankWords, m);
  }

  /** "compare stats" is a stats request: the stats words are tried before the comparison words. */
  lemma CompareStatsIsPlayerStats()
    ensures DetectIntent("compare stats").intent == PlayerStats
  {
    var head, tail := "compare ", "stats";
    var m := head + tail;
    assert m == "compare stats";
    assert ToLower(m) == m by { ToLowerNoUpper(m); }
    assert Contains(m, "stats") by {
      assert OccursAt(tail, tail, 0);
      ContainsInPart(head, tail, tail);
    }
    assert "stats" in StatsWords;
  }

  // ---------------------------------------------------------------------
  // Oracles for the text of values

  /**
   * The number formats of the f-strings, and `str()` of a float, a list or
   * a dict, which this model does not spell out.
   */
  datatype Formats = Formats(
    repr: Json -> string,      // str(x) of a float, list or dict
    fixed2: Json -> string,    // f"{x:.2f}"
    fixed1: Json -> string,    // f"{x:.1f}"
    percent1: Json -> string)  // f"{x*100:.1f}"

  /** `str(x)` / `f"{x}"` */
  function Show(f: Formats, j: Json): string {
    match j
    case JNull => "None"
    case JBool(b) => if b then "True" else "False"
    case JInt(i) => IntToString(i)
    case JStr(s) => s
    case _ => f.repr(j)
  }

  /** `x > 0` for a numeric value; anything else counts as not positive. */
  predicate Positive(j: Json) {
    match j
    case JInt(i) => i > 0
    case JReal(r) => r > 0.0
    case JBool(b) => b
    case _ => false
  }

  /** A leading marker with no whitespace at its ends survives `strip()`. */
  lemma StripKeepsMarker(p: string, rest: string)
    requires |p| > 0 && !IsSpace(p[0]) && !IsSpace(p[|p| - 1])
    ensures StartsWith(Strip(p + rest), p)
  {
    var s := p + rest;
    assert s[..|p|] == p;
    LStripNoSpace(s);
    RStripKeepsPrefix(s, p);
  }

  /** The same, for a marker followed by two parts. */
  lemma StripKeepsMarkerThen(p: string, t: string, c: string)
    requires |p| > 0 && !IsSpace(p[0]) && !IsSpace(p[|p| - 1])
    ensures StartsWith(Strip(p + t + c), p)
  {
    AppendAssoc(p, t, c);
    StripKeepsMarker(p, t + c);
  }

  /** A text that starts and ends with a non-space is left alone by `strip()`. */
  lemma Framed(p: string, mid: string, q: string)
    requires |p| > 0 && |q| > 0 && !IsSpace(p[0]) && !IsSpace(q[|q| - 1])
    ensures Strip(p + mid + q) == p + mid + q
    ensures EndsWith(p + mid + q, q)
  {
    var s := p + mid + q;
    assert s[0] == p[0] && s[|s| - 1] == q[|q| - 1];
    StripNoSpace(s);
    assert s[|s| - |q|..] == q;
  }

  // ---------------------------------------------------------------------
  // Player statistics

  const ChartMark: string := "📊"

  predicate IsIpl(row: Json) {
    Field(row, "format") == Some(JStr("IPL"))
  }

  /** `next((s for s in rows if s.get('format') == 'IPL'), None)` */
  function FirstIpl(rows: seq<Json>): (r: Option<Json>)
    ensures r.Some? ==> r.value in rows && IsIpl(r.value)
    ensures r.None? <==> forall x <- rows :: !IsIpl(x)
    decreases |rows|
  {
    if |rows| == 0 then None
    else if IsIpl(rows[0]) then Some(rows[0])
    else FirstIpl(rows[1..])
  }

  /** The first IPL row is found: no earlier row is an IPL row. */
  lemma {:induction false} FirstIplIsFirst(rows: seq<Json>, i: nat)
    requires i < |rows| && IsIpl(rows[i])
    ensures FirstIpl(rows).Some?
    ensures exists k | 0 <= k <= i :: FirstIpl(rows) == Some(rows[k]) && forall j | 0 <= j < k :: !IsIpl(rows[j])
    decreases i
  {
    if !IsIpl(rows[0]) {
      FirstIplIsFirst(rows[1..], i - 1);
      var k :| 0 <= k <= i - 1 && FirstIpl(rows[1..]) == Some(rows[1..][k])
        && forall j | 0 <= j < k :: !IsIpl(rows[1..][j]);
      assert rows[1..][k] == rows[k + 1];
      assert FirstIpl(rows) == Some(rows[k + 1]);
      forall j | 0 <= j < k + 1
        ensures !IsIpl(rows[j])
      {
        if j > 0 {
          assert rows[j] == rows[1..][j - 1];
        }
      }
    } else {
      assert FirstIpl(rows) == Some(rows[0]);
    }
  }

  /** The IPL row of a stats list, when the player has that list and it has one. */
  function IplRow(player: Json, key: string): Option<Json> {
    if Has(player, key) then FirstIpl(Items(Field(player, key).value)) else None
  }

  /** An IPL row is a non-empty dict, so it is truthy. */
  lemma IplRowTruthy(row: Json)
    requires IsIpl(row)
    ensures Truthy(row)
  {
  }

  /** The name, role and country lines, after the leading mark. */
  function PlayerHead(f: Formats, player: Json): string {
    " " + Show(f, FieldOr(player, "name", JStr("Unknown"))) + "\n"
    + "🏏 Role: " + Show(f, FieldOr(player, "role", JStr("N/A"))) + "\n"
    + "🌍 Country: " + Show(f, FieldOr(player, "country", JStr("N/A"))) + "\n\n"
  }

  function BattingBlock(f: Formats, s: Json): (r: string)
    ensures |r| > 0
  {
    "IPL Batting:\n"
    + "• Matches: " + Show(f, FieldOr(s, "matches", JInt(0))) + "\n"
    + "• Runs: " + Show(f, FieldOr(s, "runs", JInt(0))) + "\n"
    + "• Average: " + f.fixed2(FieldOr(s, "average", JInt(0))) + "\n"
    + "• Strike Rate: " + f.fixed2(FieldOr(s, "strike_rate", JInt(0))) + "\n"
    + "• 50s/100s: " + Show(f, FieldOr(s, "fifties", JInt(0))) + "/" + Show(f, FieldOr(s, "hundreds", JInt(0))) + "\n\n"
  }

  function BowlingBlock(f: Formats, s: Json): (r: string)
    ensures |r| > 0
  {
    "IPL Bowling:\n"
    + "• Wickets: " + Show(f, FieldOr(s, "wickets", JInt(0))) + "\n"
    + "• Average: " + f.fixed2(FieldOr(s, "average", JInt(0))) + "\n"
    + "• Economy: " + f.fixed2(FieldOr(s, "economy", JInt(0))) + "\n"
    + "• 5W: " + Show(f, FieldOr(s, "five_wicket_haul", JInt(0))) + "\n"
  }

  /** The batting block is there exactly when the player has an IPL batting row, and shows that row. */
  function BattingPart(f: Formats, player: Json): (r: string)
    ensures r != "" <==> IplRow(player, "batting_stats").Some?
    ensures r != "" ==> r == BattingBlock(f, IplRow(player, "batting_stats").value)
  {
    var bat := IplRow(player, "batting_stats");
    assert bat.Some? ==> Truthy(bat.value) by {
      if bat.Some? { IplRowTruthy(bat.value); }
    }
    if bat.Some? && Truthy(bat.value) then BattingBlock(f, bat.value) else ""
  }

  /**
   * The bowling block is there exactly when the player has an IPL bowling
   * row with a positive wicket count, and shows that row.
   */
  function BowlingPart(f: Formats, player: Json): (r: string)
    ensures r != "" <==> (IplRow(player, "bowling_stats").Some?
      && Positive(FieldOr(IplRow(player, "bowling_stats").value, "wickets", JInt(0))))
    ensures r != "" ==> r == BowlingBlock(f, IplRow(player, "bowling_stats").value)
  {
    var bowl := IplRow(player, "bowling_stats");
    assert bowl.Some? ==> Truthy(bowl.value) by {
      if bowl.Some? { IplRowTruthy(bowl.value); }
    }
    if bowl.Some? && Truthy(bowl.value) && Positive(FieldOr(bowl.value, "wickets", JInt(0)))
    then BowlingBlock(f, bowl.value) else ""
  }

  /** `_format_player_stats`: the header, then the batting and bowling blocks, stripped. */
  function PlayerStatsText(f: Formats, player: Json): string {
    Strip(ChartMark + (PlayerHead(f, player) + BattingPart(f, player) + BowlingPart(f, player)))
  }

  /** The stats text opens with its chart mark: stripping starts at it. */
  lemma PlayerStatsMarked(f: Formats, player: Json)
    ensures StartsWith(PlayerStatsText(f, player), ChartMark)
  {
    StripKeepsMarker(ChartMark, PlayerHead(f, player) + BattingPart(f, player) + BowlingPart(f, player));
  }

  // ---------------------------------------------------------------------
  // Valuation

  /** The key stats block: nothing for empty stats, else its title and the lines the stats have. */
  function KeyStatsBlock(f: Formats, stats: Json): (r: string)
    ensures r == "" <==> !Truthy(stats)
  {
    if !Truthy(stats) then ""
    else
      "Key Stats:\n"
      + (if Has(stats, "ipl_runs")
         then "• Runs: " + Show(f, Field(stats, "ipl_runs").value) + "\n"
           + "• Avg: " + f.fixed1(FieldOr(stats, "batting_avg", JInt(0))) + "\n"
         else "")
      + (if Has(stats, "ipl_wickets")
         then "• Wickets: " + Show(f, Field(stats, "ipl_wickets").value) + "\n"
           + "• Economy: " + f.fixed2(FieldOr(stats, "economy", JInt(0))) + "\n"
         else "")
  }

  /** The price and the four impact percentages, after the leading mark. */
  function ValuationHead(f: Formats, valuation: Json): string {
    var breakdown := FieldOr(valuation, "breakdown", JObj([]));
    " Auction Valuation: " + Show(f, FieldOr(valuation, "player_name", JStr("Unknown"))) + "\n\n"
    + "🎯 Estimated Price: ₹" + f.fixed2(FieldOr(valuation, "estimated_price_cr", JInt(0))) + " Cr\n\n"
    + "Impact Breakdown:\n"
    + "🏏 Batting: " + f.percent1(FieldOr(breakdown, "batting_impact", JInt(0))) + "%\n"
    + "⚡ Bowling: " + f.percent1(FieldOr(breakdown, "bowling_impact", JInt(0))) + "%\n"
    + "📈 Form: " + f.percent1(FieldOr(breakdown, "recent_form", JInt(0))) + "%\n"
    + "🎲 Scarcity: " + f.percent1(FieldOr(breakdown, "role_scarcity", JInt(0))) + "%\n\n"
  }

  const MoneyMark: string := "💰"

  /** `_format_valuation`: the price, the impact breakdown, then the key stats if any. */
  function ValuationText(f: Formats, valuation: Json): string {
    Strip(MoneyMark + (ValuationHead(f, valuation) + KeyStatsBlock(f, FieldOr(valuation, "key_stats", JObj([])))))
  }

  /** The valuation text opens with its money mark. */
  lemma ValuationMarked(f: Formats, valuation: Json)
    ensures StartsWith(ValuationText(f, valuation), MoneyMark)
  {
    StripKeepsMarker(MoneyMark, ValuationHead(f, valuation) + KeyStatsBlock(f, FieldOr(valuation, "key_stats", JObj([]))));
  }

  // ---------------------------------------------------------------------
  // Numbered listings

  /** `enumerate(xs, 1)` rendered: entry `k + 1` for the `k`-th element, in order. */
  function Numbered(render: (nat, Json) -> string, xs: seq<Json>): (es: seq<string>)
    ensures |es| == |xs|
    decreases |xs|
  {
    if |xs| == 0 then []
    else Numbered(render, xs[..|xs| - 1]) + [render(|xs|, xs[|xs| - 1])]
  }

  /** The `k`-th entry is element `k`, numbered `k + 1`. */
  lemma {:induction false} NumberedAt(render: (nat, Json) -> string, xs: seq<Json>, k: nat)
    requires k < |xs|
    ensures Numbered(render, xs)[k] == render(k + 1, xs[k])
    decreases |xs|
  {
    if k < |xs| - 1 {
      NumberedAt(render, xs[..|xs| - 1], k);
    }
  }

  /** A listing of the first `n`: at most `n` entries, entry `k` rendering element `k` as number `k + 1`. */
  lemma Listed(render: (nat, Json) -> string, xs: seq<Json>, n: nat)
    ensures var es := Numbered(render, Take(xs, n));
      |es| == (if |xs| < n then |xs| else n)
      && forall k | 0 <= k < |es| :: es[k] == render(k + 1, xs[k])
  {
    var es := Numbered(render, Take(xs, n));
    forall k | 0 <= k < |es|
      ensures es[k] == render(k + 1, xs[k])
    {
      NumberedAt(render, Take(xs, n), k);
    }
  }

  /** `i. ` followed by anything starts with the number and the dot. */
  lemma DotAfterNumber(i: nat, rest: string)
    ensures StartsWith(IntToString(i) + "." + rest, IntToString(i) + ".")
  {
    var h := IntToString(i) + ".";
    assert (h + rest)[..|h|] == h;
  }

  /** The `response += entry` loop over the entries, in order. */
  method AppendAll(head: string, parts: seq<string>) returns (r: string)
    ensures r == head + Concat(parts)
  {
    r := head;
    var i := 0;
    while i < |parts|
      invariant 0 <= i <= |parts|
      invariant r == head + Concat(parts[..i])
    {
      assert parts[..i + 1] == parts[..i] + [parts[i]];
      ConcatSnoc(parts[..i], parts[i]);
      r := r + parts[i];
      i := i + 1;
    }
    assert parts[..i] == parts;
  }

  // ---------------------------------------------------------------------
  // Comparison

  const ComparisonMark: string := "⚖️"
  const ComparisonTitle: string := " *Player Comparison*\n\n"

  /** The runs and wickets parts of an entry, those the key stats have. */
  function StatParts(f: Formats, stats: Json): seq<string> {
    (if Has(stats, "ipl_runs") then [Show(f, Field(stats, "ipl_runs").value) + " runs"] else [])
    + (if Has(stats, "ipl_wickets") then [Show(f, Field(stats, "ipl_wickets").value) + " wkts"] else [])
  }

  /** An entry after its number: name, price and role, the stats line if any, a blank line. */
  function ComparisonDetails(f: Formats, p: Json): string {
    var parts := StatParts(f, FieldOr(p, "key_stats", JObj([])));
    Show(f, FieldOr(p, "player_name", JStr("Unknown"))) + "*\n"
    + "   ₹" + f.fixed2(FieldOr(p, "estimated_price_cr", JInt(0))) + " Cr | " + Show(f, FieldOr(p, "role", JStr("N/A"))) + "\n"
    + (if |parts| > 0 then "   " + Join(" | ", parts) + "\n" else "")
    + "\n"
  }

  function ComparisonEntry(f: Formats, i: nat, p: Json): string {
    IntToString(i) + ". *" + ComparisonDetails(f, p)
  }

  function ComparisonRender(f: Formats): (nat, Json) -> string {
    (i: nat, p: Json) => ComparisonEntry(f, i, p)
  }

  /** The text `_format_comparison` builds: the title and an entry for each of the first five. */
  function ComparisonText(f: Formats, players: seq<Json>): string {
    Strip(ComparisonMark + ComparisonTitle + Concat(Numbered(ComparisonRender(f), Take(players, 5))))
  }

  /** `_format_comparison` */
  method FormatComparison(f: Formats, players: seq<Json>) returns (r: string)
    ensures r == ComparisonText(f, players)
  {
    var response := AppendAll(ComparisonMark + ComparisonTitle, Numbered(ComparisonRender(f), Take(players, 5)));
    return Strip(response);
  }

  /**
   * The comparison opens with its mark, and at most five players are
   * compared, entry `k` showing player `k` as number `k + 1`.
   */
  lemma ComparisonListing(f: Formats, players: seq<Json>)
    ensures StartsWith(ComparisonText(f, players), ComparisonMark)
    ensures var es := Numbered(ComparisonRender(f), Take(players, 5));
      |es| <= 5 && forall k | 0 <= k < |es| :: es[k] == ComparisonEntry(f, k + 1, players[k])
  {
    StripKeepsMarkerThen(ComparisonMark, ComparisonTitle, Concat(Numbered(ComparisonRender(f), Take(players, 5))));
    Listed(ComparisonRender(f), players, 5);
  }

  // ---------------------------------------------------------------------
  // Similar players

  const NoSimilar: string := "❌ No similar players found."
  const SearchMark: string := "🔍"
  const SimilarTitle: string := " *Similar Players:*\n\n"

  /** An entry after its number: name, role and country, similarity, a blank line. */
  function SimilarDetails(f: Formats, p: Json): string {
    Show(f, FieldOr(p, "name", JStr("Unknown"))) + "*\n"
    + "   " + Show(f, FieldOr(p, "role", JStr("N/A"))) + " | " + Show(f, FieldOr(p, "country", JStr("N/A"))) + "\n"
    + "   Similarity: " + f.percent1(FieldOr(p, "similarity_score", JInt(0))) + "%\n\n"
  }

  function SimilarEntry(f: Formats, i: nat, p: Json): string {
    IntToString(i) + ". *" + SimilarDetails(f, p)
  }

  function SimilarRender(f: Formats): (nat, Json) -> string {
    (i: nat, p: Json) => SimilarEntry(f, i, p)
  }

  /** The text `_format_similar_players` builds: "none found" exactly for an empty list. */
  function SimilarText(f: Formats, players: seq<Json>): string {
    if |players| == 0 then NoSimilar
    else Strip(SearchMark + SimilarTitle + Concat(Numbered(SimilarRender(f), Take(players, 5))))
  }

  /** `_format_similar_players` */
  method FormatSimilarPlayers(f: Formats, players: seq<Json>) returns (r: string)
    ensures r == SimilarText(f, players)
  {
    if |players| == 0 {
      return NoSimilar;
    }
    var response := AppendAll(SearchMark + SimilarTitle, Numbered(SimilarRender(f), Take(players, 5)));
    return Strip(response);
  }

  /** At most five similar players are listed, entry `k` showing player `k` as number `k + 1`. */
  lemma SimilarListing(f: Formats, players: seq<Json>)
    ensures SimilarText(f, players) == NoSimilar <==> |players| == 0
    ensures |players| > 0 ==> StartsWith(SimilarText(f, players), SearchMark)
    ensures var es := Numbered(SimilarRender(f), Take(players, 5));
      |es| <= 5 && forall k | 0 <= k < |es| :: es[k] == SimilarEntry(f, k + 1, players[k])
  {
    if |players| > 0 {
      StripKeepsMarkerThen(SearchMark, SimilarTitle, Concat(Numbered(SimilarRender(f), Take(players, 5))));
      assert SimilarText(f, players)[0] == SearchMark[0] != NoSimilar[0];
    }
    Listed(SimilarRender(f), players, 5);
  }

  // ---------------------------------------------------------------------
  // Query results

  const QueryFailed: string := "❌ Sorry, I couldn't process that query.\n\n_"
  const NoResults: string := "📭 No results found for your query."

  /** One `key: value | ` piece of a row; a None value gives nothing. */
  function FieldText(f: Formats, key: string, value: Json): string {
    if value.JNull? then ""
    else if value.JReal? then key + ": " + f.fixed2(value) + " | "
    else key + ": " + Show(f, value) + " | "
  }

  /** The pieces of the fields, in order. */
  function FieldsText(f: Formats, fields: seq<(string, Json)>): string
    decreases |fields|
  {
    if |fields| == 0 then ""
    else FieldsText(f, fields[..|fields| - 1]) + FieldText(f, fields[|fields| - 1].0, fields[|fields| - 1].1)
  }

  /** One turn of the field loop appends the next field's piece. */
  lemma FieldsStep(f: Formats, fields: seq<(string, Json)>, j: nat, lead: string, piece: string)
    requires j < |fields| && piece == lead + FieldsText(f, fields[..j])
    ensures piece + FieldText(f, fields[j].0, fields[j].1) == lead + FieldsText(f, fields[..j + 1])
  {
    assert fields[..j + 1][..j] == fields[..j];
    AppendAssoc(lead, FieldsText(f, fields[..j]), FieldText(f, fields[j].0, fields[j].1));
  }

  /** Row number `i`: its pieces with the trailing spaces and bars removed, and a newline. */
  function RowLine(f: Formats, i: nat, row: Json): string {
    RStripChars(IntToString(i) + ". " + FieldsText(f, Entries(row)), " |") + "\n"
  }

  /** The row lines, numbered from 1. */
  function RowLines(f: Formats, rows: seq<Json>): (ls: seq<string>)
    ensures |ls| == |rows|
    decreases |rows|
  {
    if |rows| == 0 then []
    else RowLines(f, rows[..|rows| - 1]) + [RowLine(f, |rows|, rows[|rows| - 1])]
  }

  /** Line `k` is row `k`, numbered `k + 1`. */
  lemma {:induction false} RowLinesAt(f: Formats, rows: seq<Json>, k: nat)
    requires k < |rows|
    ensures RowLines(f, rows)[k] == RowLine(f, k + 1, rows[k])
    decreases |rows|
  {
    if k < |rows| - 1 {
      RowLinesAt(f, rows[..|rows| - 1], k);
    }
  }

  /** Every row line starts with its number and a dot: stripping " |" stops at the dot. */
  lemma RowLineNumbered(f: Formats, i: nat, row: Json)
    ensures StartsWith(RowLine(f, i, row), IntToString(i) + ".")
  {
    var n, fields := IntToString(i), FieldsText(f, Entries(row));
    DotThenSpace(n, fields);
    StrippedLineStarts(n + ". " + fields, n + ".", " " + fields, " |");
  }

  lemma DotThenSpace(n: string, rest: string)
    ensures n + ". " + rest == (n + ".") + (" " + rest)
  { }

  /** Stripping the end of `h + rest` stops inside `rest` when `h` ends outside the set. */
  lemma StrippedLineStarts(a: string, h: string, rest: string, cs: string)
    requires a == h + rest && |h| > 0 && h[|h| - 1] !in cs
    ensures StartsWith(RStripChars(a, cs) + "\n", h)
  {
    RStripCharsAfter(h, rest, cs);
    var t := RStripChars(rest, cs);
    AppendAssoc(h, t, "\n");
    assert (h + (t + "\n"))[..|h|] == h;
  }

  function ResultsHeader(query: string): string {
    " *Results for: " + Take(query, 50) + "...*\n\n"
  }

  /** The note on rows not shown: there exactly when more than ten rows came back. */
  function MoreNote(n: nat): (r: string)
    ensures r != "" <==> n > 10
    ensures r != "" ==> r[|r| - 1] == '_'
  {
    if n > 10 then "\n_...and " + IntToString(n - 10) + " more results_" else ""
  }

  /**
   * The listing of a successful result with rows: the header, the first
   * ten rows, and the note on the rest, stripped.
   */
  function ResultsText(f: Formats, query: string, rows: seq<Json>): string {
    Strip(ChartMark + ResultsHeader(query) + Concat(RowLines(f, Take(rows, 10))) + MoreNote(|rows|))
  }

  /** The text `_format_query_result` builds. */
  function QueryResultText(f: Formats, result: Json, query: string): string {
    if !Truthy(FieldOr(result, "success", JNull)) then
      QueryFailed + Show(f, FieldOr(result, "error", JStr("Unknown error"))) + "_"
    else
      var data := FieldOr(result, "data", JList([]));
      if !Truthy(data) then NoResults
      else ResultsText(f, query, Items(data))
  }

  /** The inner loop: `i. ` and one piece for each field of the row. */
  method RowPieces(f: Formats, i: nat, row: Json) returns (piece: string)
    ensures piece == IntToString(i) + ". " + FieldsText(f, Entries(row))
  {
    var lead := IntToString(i) + ". ";
    piece := lead;
    var fields := Entries(row);
    var j := 0;
    while j < |fields|
      invariant 0 <= j <= |fields|
      invariant piece == lead + FieldsText(f, fields[..j])
    {
      FieldsStep(f, fields, j, lead, piece);
      piece := piece + FieldText(f, fields[j].0, fields[j].1);
      j := j + 1;
    }
    assert fields[..j] == fields;
  }

  /** One turn of the row loop appends the next row's line. */
  lemma RowStep(f: Formats, head: string, rows: seq<Json>, i: nat, r: string, piece: string)
    requires i < |rows|
    requires r == head + Concat(RowLines(f, rows[..i])) && |r| > 0 && r[|r| - 1] == '\n'
    requires piece == IntToString(i + 1) + ". " + FieldsText(f, Entries(rows[i]))
    ensures RStripChars(r + piece, " |") + "\n" == head + Concat(RowLines(f, rows[..i + 1]))
  {
    var line := RowLine(f, i + 1, rows[i]);
    assert line == RStripChars(piece, " |") + "\n";
    assert r[|r| - 1] !in " |";
    StripAppendLine(r, piece, " |", line);
    RowLinesSnoc(f, rows, i);
    ConcatSnoc(RowLines(f, rows[..i]), line);
    AppendAssoc(head, Concat(RowLines(f, rows[..i])), line);
  }

  lemma StripAppendLine(r: string, piece: string, cs: string, line: string)
    requires |r| > 0 && r[|r| - 1] !in cs && line == RStripChars(piece, cs) + "\n"
    ensures RStripChars(r + piece, cs) + "\n" == r + line
  {
    RStripCharsAfter(r, piece, cs);
    AppendAssoc(r, RStripChars(piece, cs), "\n");
  }

  lemma RowLinesSnoc(f: Formats, rows: seq<Json>, i: nat)
    requires i < |rows|
    ensures RowLines(f, rows[..i + 1]) == RowLines(f, rows[..i]) + [RowLine(f, i + 1, rows[i])]
  {
    assert rows[..i + 1][..i] == rows[..i];
  }

  /**
   * The row loop: each row's pieces are appended, the whole text loses its
   * trailing spaces and bars, and a newline follows. The text so far ends
   * in a newline, so the stripping never reaches past the new row.
   */
  method AppendRows(f: Formats, head: string, rows: seq<Json>) returns (r: string)
    requires |head| > 0 && head[|head| - 1] == '\n'
    ensures r == head + Concat(RowLines(f, rows))
  {
    r := head;
    var i := 0;
    while i < |rows|
      invariant 0 <= i <= |rows|
      invariant r == head + Concat(RowLines(f, rows[..i]))
      invariant |r| > 0 && r[|r| - 1] == '\n'
    {
      var piece := RowPieces(f, i + 1, rows[i]);
      RowStep(f, head, rows, i, r, piece);
      r := RStripChars(r + piece, " |") + "\n";
      i := i + 1;
    }
    assert rows[..i] == rows;
  }

  /** `_format_query_result` */
  method FormatQueryResult(f: Formats, result: Json, query: string) returns (r: string)
    ensures r == QueryResultText(f, result, query)
  {
    if !Truthy(FieldOr(result, "success", JNull)) {
      return QueryFailed + Show(f, FieldOr(result, "error", JStr("Unknown error"))) + "_";
    }
    var data := FieldOr(result, "data", JList([]));
    if !Truthy(data) {
      return NoResults;
    }
    var rows := Items(data);
    var response := AppendRows(f, ChartMark + ResultsHeader(query), Take(rows, 10));
    if |rows| > 10 {
      response := response + MoreNote(|rows|);
    } else {
      assert response + MoreNote(|rows|) == response;
    }
    return Strip(response);
  }

  /**
   * A failed result gives the apology and then the error; a successful one
   * without rows the "no results" text; otherwise the listing opens with
   * its chart mark, shows at most ten rows, entry `k` showing row `k` as
   * number `k + 1`, and closes with the note on the rest when there are
   * more than ten.
   */
  lemma QueryResultListing(f: Formats, result: Json, query: string)
    ensures !Truthy(FieldOr(result, "success", JNull)) ==> StartsWith(QueryResultText(f, result, query), QueryFailed)
    ensures Truthy(FieldOr(result, "success", JNull)) && !Truthy(FieldOr(result, "data", JList([]))) ==>
      QueryResultText(f, result, query) == NoResults
    ensures var rows := Items(FieldOr(result, "data", JList([])));
      Truthy(FieldOr(result, "success", JNull)) && Truthy(FieldOr(result, "data", JList([]))) ==>
        QueryResultText(f, result, query) == ResultsText(f, query, rows)
  {
    if !Truthy(FieldOr(result, "success", JNull)) {
      var e := Show(f, FieldOr(result, "error", JStr("Unknown error"))) + "_";
      assert (QueryFailed + e)[..|QueryFailed|] == QueryFailed;
    }
  }

  /**
   * A listing opens with its chart mark, shows at most ten rows, entry `k`
   * showing row `k` as number `k + 1`, and closes with the note on the
   * rest when there are more than ten.
   */
  lemma ResultsListing(f: Formats, query: string, rows: seq<Json>)
    ensures StartsWith(ResultsText(f, query, rows), ChartMark)
    ensures |rows| > 10 ==> EndsWith(ResultsText(f, query, rows), MoreNote(|rows|))
    ensures var es := RowLines(f, Take(rows, 10));
      |es| <= 10 && forall k | 0 <= k < |es| :: es[k] == RowLine(f, k + 1, rows[k])
  {
    ResultsFrame(f, query, rows);
    ResultsRows(f, rows);
  }

  /** The listing opens with its chart mark and, past ten rows, closes with the note. */
  lemma ResultsFrame(f: Formats, query: string, rows: seq<Json>)
    ensures StartsWith(ResultsText(f, query, rows), ChartMark)
    ensures |rows| > 10 ==> EndsWith(ResultsText(f, query, rows), MoreNote(|rows|))
  {
    var h, x, n := ResultsHeader(query), Concat(RowLines(f, Take(rows, 10))), MoreNote(|rows|);
    AppendAssoc(ChartMark, h, x);
    StripKeepsMarkerThen(ChartMark, h + x, n);
    if |rows| > 10 {
      Framed(ChartMark, h + x, n);
    }
  }

  /** At most ten row lines, line `k` showing row `k` as number `k + 1`. */
  lemma ResultsRows(f: Formats, rows: seq<Json>)
    ensures var es := RowLines(f, Take(rows, 10));
      |es| <= 10 && forall k | 0 <= k < |es| :: es[k] == RowLine(f, k + 1, rows[k])
  {
    var es := RowLines(f, Take(rows, 10));
    forall k | 0 <= k < |es|
      ensures es[k] == RowLine(f, k + 1, rows[k])
    {
      RowLinesAt(f, Take(rows, 10), k);
    }
  }

  // ---------------------------------------------------------------------
  // The model-written response

  /** The model the generator starts with: the flash model, else gemini-pro, else none. */
  function InitModel(loads: string -> bool): (m: Option<string>)
    ensures m.Some? ==> loads(m.value)
    ensures m.None? <==> !loads("gemini-1.5-flash-latest") && !loads("gemini-pro")
    ensures loads("gemini-1.5-flash-latest") ==> m == Some("gemini-1.5-flash-latest")
  {
    if loads("gemini-1.5-flash-latest") then Some("gemini-1.5-flash-latest")
    else if loads("gemini-pro") then Some("gemini-pro")
    else None
  }

  /**
   * The generator: its model, the model call (None for any exception) and
   * the number formats.
   */
  datatype Responder = Responder(
    model: Option<string>,
    generate: (string, string) -> Option<string>,
    fmt: Formats)

  const FoundPrefix: string := "✅ Here's what I found:\n\n"

  function Prompt(query: string, data: string): string {
    "You are an IPL auction expert WhatsApp bot. \n\nUser Query: " + query
    + "\n\nData: " + Take(data, 1000)
    + "\n\nGenerate a concise, friendly WhatsApp response (max 500 chars):\n"
    + "- Use emojis sparingly (2-3 max)\n- Be direct and informative\n"
    + "- Format with *bold* for emphasis\n- Keep it conversational\n\nResponse:"
  }

  /** What the model answers for this prompt, when there is a model and the call succeeds. */
  function ModelReply(g: Responder, query: string, data: Json): Option<string> {
    if g.model.None? then None else g.generate(g.model.value, Prompt(query, Show(g.fmt, data)))
  }

  /**
   * `_generate_dynamic_response`: the first 500 characters of the stripped
   * model reply, or the fixed prefix and the first 300 characters of the
   * data's text when there is no model or the call fails.
   */
  function DynamicResponse(g: Responder, query: string, data: Json): (r: string)
    ensures |r| <= 500
    ensures ModelReply(g, query, data).Some? ==>
      var reply := Strip(ModelReply(g, query, data).value);
      |r| == (if |reply| < 500 then |reply| else 500) && StartsWith(reply, r)
    ensures ModelReply(g, query, data).None? ==>
      var shown := Show(g.fmt, data);
      StartsWith(r, FoundPrefix) && |r| == |FoundPrefix| + (if |shown| < 300 then |shown| else 300)
      && StartsWith(shown, r[|FoundPrefix|..])
  {
    var reply := ModelReply(g, query, data);
    if reply.Some? then Take(Strip(reply.value), 500)
    else
      var shown := Take(Show(g.fmt, data), 300);
      assert (FoundPrefix + shown)[|FoundPrefix|..] == shown;
      FoundPrefix + shown
  }

  // ---------------------------------------------------------------------
  // Dispatch

  /** The text `format_whatsapp_response` returns. */
  function WhatsappText(g: Responder, query: string, data: Json, responseType: string): string {
    if responseType == "player_stats" then PlayerStatsText(g.fmt, data)
    else if responseType == "valuation" then ValuationText(g.fmt, data)
    else if responseType == "comparison" then ComparisonText(g.fmt, Items(data))
    else if responseType == "query_result" then QueryResultText(g.fmt, data, query)
    else if responseType == "similar_players" then SimilarText(g.fmt, Items(data))
    else DynamicResponse(g, query, data)
  }

  /** `format_whatsapp_response`: each type to its formatter, anything else to the model. */
  method FormatWhatsappResponse(g: Responder, query: string, data: Json, responseType: string) returns (r: string)
    ensures r == WhatsappText(g, query, data, responseType)
  {
    if responseType == "player_stats" {
      r := PlayerStatsText(g.fmt, data);
    } else if responseType == "valuation" {
      r := ValuationText(g.fmt, data);
    } else if responseType == "comparison" {
      r := FormatComparison(g.fmt, Items(data));
    } else if responseType == "query_result" {
      r := FormatQueryResult(g.fmt, data, query);
    } else if responseType == "similar_players" {
      r := FormatSimilarPlayers(g.fmt, Items(data));
    } else {
      r := DynamicResponse(g, query, data);
    }
  }

  // Each named response type goes to its own formatter.

  lemma DispatchStats(g: Responder, query: string, data: Json)
    ensures WhatsappText(g, query, data, "player_stats") == PlayerStatsText(g.fmt, data)
  {
  }

  lemma DispatchValuation(g: Responder, query: string, data: Json)
    ensures WhatsappText(g, query, data, "valuation") == ValuationText(g.fmt, data)
  {
    assert |"valuation"| != |"player_stats"|;
  }

  lemma DispatchComparison(g: Responder, query: string, data: Json)
    ensures WhatsappText(g, query, data, "comparison") == ComparisonText(g.fmt, Items(data))
  {
    assert |"comparison"| != |"player_stats"| && |"comparison"| != |"valuation"|;
  }

  lemma DispatchQueryResult(g: Responder, query: string, data: Json)
    ensures WhatsappText(g, query, data, "query_result") == QueryResultText(g.fmt, data, query)
  {
    assert "query_result"[0] != "player_stats"[0];
    assert |"query_result"| != |"valuation"| && |"query_result"| != |"comparison"|;
  }

  lemma DispatchSimilar(g: Responder, query: string, data: Json)
    ensures WhatsappText(g, query, data, "similar_players") == SimilarText(g.fmt, Items(data))
  {
    assert |"similar_players"| != |"player_stats"| && |"similar_players"| != |"valuation"|;
    assert |"similar_players"| != |"comparison"|;
  }
}
