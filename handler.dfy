/**
 * The WhatsApp message handler: it classifies a message, hands it to one
 * handler per intent and, for general questions, walks a fallback chain
 * from the fixed query patterns through text-to-SQL and semantic search to
 * a fixed guidance text. Player names are picked out of the message by a
 * list of known players and a capitalisation heuristic.
 */
module Handler {
  import opened Strings
  import opened Values
  import opened RedisCache
  import opened Database
  import opened TextToSql
  import opened SimpleQueries
  import opened AiResponse

  // ---------------------------------------------------------------------
  // Fixed replies

  const Unavailable: string := "❌ Service temporarily unavailable. Please try again later."
  const NoNameForStats: string := "Please specify a player name.\n\nExample: Show me Virat Kohli stats"
  const NoNameForValue: string := "❌ Please specify a player name.\n\nExample: What's Virat Kohli's auction value?"
  const NoValuation: string := "❌ Unable to calculate valuation for this player."
  const NeedTwoPlayers: string :=
    "❌ Please specify at least 2 players to compare.\n\nExample: _Compare Virat Kohli and Rohit Sharma_"
  const TooFewFound: string := "❌ Could not find enough players to compare."
  const NoGems: string := "❌ No hidden gems found at the moment."
  const RankingApology: string := "❌ Sorry, I couldn't process that " + "ranking query."
  const Guidance: string :=
    "Sorry, I couldn't understand that query. " + "Try:\n\nShow me Virat Kohli stats\n"
    + "What's Rohit Sharma's auction value?\n" + "Top 5 batsmen by IPL runs"

  function NotFoundInDb(name: string): string {
    "Player '" + name + "' not found in database."
  }

  function NotFound(name: string): string {
    "❌ Player '" + name + "' not found."
  }

  function DidYouMean(name: string): string {
    "❌ Player '" + name + "' not found.\n\n*Did you mean:*\n"
  }

  /** One suggestion line per search hit, as the suggestion loop appends them. */
  function Bullets(f: Formats, similar: seq<Json>): (ls: seq<string>)
    ensures |ls| == |similar|
    decreases |similar|
  {
    if |similar| == 0 then []
    else Bullets(f, similar[..|similar| - 1])
         + ["• " + Show(f, FieldOr(similar[|similar| - 1], "name", JNull)) + "\n"]
  }

  /** The reply when the formatted stats come out (nearly) empty. */
  function StatsFallback(f: Formats, player: Json): string {
    "📊 *" + Show(f, FieldOr(player, "name", JNull)) + "*\n🏏 Role: " + Show(f, FieldOr(player, "role", JNull))
    + "\n🌍 Country: " + Show(f, FieldOr(player, "country", JNull)) + "\n\n⚠️ Stats temporarily unavailable."
  }

  // ---------------------------------------------------------------------
  // The first keyword that occurs

  /** The first of `ws` that occurs in `s`. */
  function FirstContained(ws: seq<string>, s: string): Option<string>
    decreases |ws|
  {
    if |ws| == 0 then None
    else if Contains(s, ws[0]) then Some(ws[0])
    else FirstContained(ws[1..], s)
  }

  /**
   * What "first" means: a result occurs in `s` and no earlier keyword
   * does; there is no result exactly when no keyword occurs.
   */
  lemma {:induction false} FirstContainedSpec(ws: seq<string>, s: string)
    ensures FirstContained(ws, s).None? <==> forall i | 0 <= i < |ws| :: !Contains(s, ws[i])
    ensures FirstContained(ws, s).Some? ==> exists i | 0 <= i < |ws| ::
      ws[i] == FirstContained(ws, s).value && Contains(s, ws[i])
      && forall j | 0 <= j < i :: !Contains(s, ws[j])
    decreases |ws|
  {
    if |ws| > 0 && !Contains(s, ws[0]) {
      FirstContainedSpec(ws[1..], s);
      if FirstContained(ws, s).Some? {
        var i :| 0 <= i < |ws[1..]| && ws[1..][i] == FirstContained(ws, s).value && Contains(s, ws[1..][i])
          && forall j | 0 <= j < i :: !Contains(s, ws[1..][j]);
        assert ws[i + 1] == ws[1..][i];
        assert forall j | 1 <= j < i + 1 :: ws[j] == ws[1..][j - 1];
      }
    }
  }

  /** The loops over known players and over roles: the first that occurs, or none. */
  method FindFirst(ws: seq<string>, s: string) returns (r: Option<string>)
    ensures r == FirstContained(ws, s)
  {
    for i := 0 to |ws|
      invariant FirstContained(ws[i..], s) == FirstContained(ws, s)
    {
      assert ws[i..][1..] == ws[i + 1..];
      if Contains(s, ws[i]) {
        return Some(ws[i]);
      }
    }
    return None;
  }

  // ---------------------------------------------------------------------
  // Player names

  const KnownPlayers: seq<string> :=
    ["virat kohli", "rohit sharma", "ms dhoni", "jasprit bumrah", "hardik pandya"]

  /** The query words never taken for part of a name. */
  const StopWords: seq<string> := [
    "show", "me", "about", "stats", "profile", "tell", "value", "worth",
    "price", "what", "is", "the", "his", "her", "auction", "find",
    "get", "display", "give", "whats", "what's", "of", "for", "a", "an",
    "which", "country", "role", "team"
  ]

  /** `w in words`, one word at a time. */
  predicate IsOneOf(w: string, words: seq<string>)
    decreases |words|
  {
    |words| > 0 && (words[0] == w || IsOneOf(w, words[1..]))
  }

  lemma {:induction false} IsOneOfIsIn(w: string, words: seq<string>)
    ensures IsOneOf(w, words) <==> w in words
    decreases |words|
  {
    if |words| > 0 {
      IsOneOfIsIn(w, words[1..]);
      assert words == [words[0]] + words[1..];
    }
  }

  /** `word and (word[0].isupper() or any(c.isupper() for c in word))` */
  predicate Capitalised(w: string) {
    |w| > 0 && (IsUpper(w[0]) || exists i | 0 <= i < |w| :: IsUpper(w[i]))
  }

  /** What one word adds to the name: its letters, when it is a long enough capitalised non-stop word. */
  function NamePart(w: string, stops: seq<string>): seq<string> {
    if IsOneOf(ToLower(w), stops) then []
    else if Capitalised(w) && |Letters(w)| > 2 then [Letters(w)]
    else []
  }

  /** The name parts of the words, in order. */
  function NameParts(words: seq<string>, stops: seq<string>): seq<string>
    decreases |words|
  {
    if |words| == 0 then []
    else NameParts(words[..|words| - 1], stops) + NamePart(words[|words| - 1], stops)
  }

  /**
   * `_extract_player_name` with its two lists as parameters: a known
   * player whose name occurs in the lower-cased message, title-cased; else
   * up to three name parts joined by spaces; else None.
   */
  function NameIn(message: string, known: seq<string>, stops: seq<string>): Option<string> {
    var hit := FirstContained(known, ToLower(message));
    if hit.Some? then Some(Title(hit.value))
    else
      var parts := NameParts(Split(message), stops);
      if |parts| == 0 then None else Some(Join(" ", Take(parts, 3)))
  }

  /** `_extract_player_name` */
  function PlayerName(message: string): Option<string> {
    NameIn(message, KnownPlayers, StopWords)
  }

  /** The loops of `_extract_player_name`, over the known players and then over the words. */
  method FindName(message: string, known: seq<string>, stops: seq<string>) returns (name: Option<string>)
    ensures name == NameIn(message, known, stops)
  {
    var lower := ToLower(message);
    var words := Split(message);
    var hit := FindFirst(known, lower);
    if hit.Some? {
      return Some(Title(hit.value));
    }
    var parts: seq<string> := [];
    for i := 0 to |words|
      invariant parts == NameParts(words[..i], stops)
    {
      var word := words[i];
      NamePartsSnoc(words, i, stops);
      if IsOneOf(ToLower(word), stops) {
        continue;
      }
      if |word| > 0 && (IsUpper(word[0]) || exists k | 0 <= k < |word| :: IsUpper(word[k])) {
        var clean := Letters(word);
        if |clean| > 2 {
          parts := parts + [clean];
        }
      }
    }
    assert words[..|words|] == words;
    if |parts| > 0 {
      return Some(Join(" ", Take(parts, 3)));
    }
    return None;
  }

  /** One more word adds its own name part. */
  lemma NamePartsSnoc(words: seq<string>, i: nat, stops: seq<string>)
    requires i < |words|
    ensures NameParts(words[..i + 1], stops) == NameParts(words[..i], stops) + NamePart(words[i], stops)
  {
    assert words[..i + 1][..i] == words[..i];
  }

  /** `_extract_player_name` */
  method ExtractPlayerName(message: string) returns (name: Option<string>)
    ensures name == PlayerName(message)
  {
    name := FindName(message, KnownPlayers, StopWords);
  }

  /** Name parts of two runs of words are those of the first run, then those of the second. */
  lemma {:induction false} NamePartsAppend(a: seq<string>, b: seq<string>, stops: seq<string>)
    ensures NameParts(a + b, stops) == NameParts(a, stops) + NameParts(b, stops)
    decreases |b|
  {
    if |b| == 0 {
      assert a + b == a;
    } else {
      var b' := b[..|b| - 1];
      assert (a + b)[..|a + b| - 1] == a + b';
      assert (a + b)[|a + b| - 1] == b[|b| - 1];
      NamePartsAppend(a, b', stops);
    }
  }

  /**
   * Every name part is the letters of some word: a non-stop word with an
   * upper-case letter, at least three letters long. There are no parts
   * exactly when no word qualifies.
   */
  lemma {:induction false} NamePartsOrigin(words: seq<string>, stops: seq<string>)
    ensures forall p <- NameParts(words, stops) :: (|p| > 2 && (forall c <- p :: IsLetter(c))
      && exists w <- words :: !IsOneOf(ToLower(w), stops) && Capitalised(w) && p == Letters(w))
    ensures |NameParts(words, stops)| == 0 <==> forall w <- words :: NamePart(w, stops) == []
    decreases |words|
  {
    if |words| > 0 {
      var init, last := words[..|words| - 1], words[|words| - 1];
      assert words == init + [last];
      NamePartsOrigin(init, stops);
      forall p <- NameParts(words, stops)
        ensures |p| > 2 && (forall c <- p :: IsLetter(c))
          && exists w <- words :: !IsOneOf(ToLower(w), stops) && Capitalised(w) && p == Letters(w)
      {
        if p in NameParts(init, stops) {
          var w :| w in init && !IsOneOf(ToLower(w), stops) && Capitalised(w) && p == Letters(w);
          assert w in words;
        } else {
          assert p in NamePart(last, stops);
          assert forall i | 0 <= i < |p| :: IsLetter(p[i]);
        }
      }
    }
  }

  /** A name part is a word to `split()`: non-empty, no whitespace. */
  lemma PartsAreWords(parts: seq<string>)
    requires forall p <- parts :: |p| > 2 && forall c <- p :: IsLetter(c)
    ensures forall p <- parts :: IsWord(p)
  {
    forall p <- parts
      ensures IsWord(p)
    {
      forall c <- p
        ensures !IsSpace(c)
      {
        assert IsLetter(c);
      }
    }
  }

  /**
   * A known player comes first and is returned title-cased. Otherwise the
   * name is at most three name parts in message order, and splitting it
   * gives them back; there is no name exactly when no word qualifies.
   */
  lemma NameShape(message: string, known: seq<string>, stops: seq<string>)
    ensures var hit := FirstContained(known, ToLower(message));
      hit.Some? ==> hit.value in known && Contains(ToLower(message), hit.value)
                    && NameIn(message, known, stops) == Some(Title(hit.value))
    ensures var parts := NameParts(Split(message), stops);
      FirstContained(known, ToLower(message)).None? ==>
        (NameIn(message, known, stops).None? <==> forall w <- Split(message) :: NamePart(w, stops) == [])
        && (NameIn(message, known, stops).Some? ==>
              var name := NameIn(message, known, stops).value;
              1 <= |Take(parts, 3)| <= 3 && Take(parts, 3) == parts[..|Take(parts, 3)|]
              && name == Join(" ", Take(parts, 3)) && Split(name) == Take(parts, 3))
  {
    var hit := FirstContained(known, ToLower(message));
    FirstContainedSpec(known, ToLower(message));
    var parts := NameParts(Split(message), stops);
    NamePartsOrigin(Split(message), stops);
    if hit.None? && |parts| > 0 {
      var kept := Take(parts, 3);
      assert forall p <- kept :: p in parts;
      PartsAreWords(kept);
      SplitJoin(kept);
    }
  }

  /** A known player's name found is that name up to case. */
  lemma KnownNameIgnoresCase(message: string, known: seq<string>, stops: seq<string>)
    requires FirstContained(known, ToLower(message)).Some?
    ensures ToLower(NameIn(message, known, stops).value) == ToLower(FirstContained(known, ToLower(message)).value)
  {
    TitleStable(FirstContained(known, ToLower(message)).value);
  }

  // ---------------------------------------------------------------------
  // Several player names

  /** The message cut at " and ", " vs " and ",", in that order of replacement. */
  function PlayerPieces(message: string): (parts: seq<string>)
    ensures |parts| > 0
  {
    SplitOn(Replace(Replace(Replace(message, " and ", "|"), " vs ", "|"), ",", "|"), '|')
  }

  /** The names found in the pieces, at most one each, in order. */
  function NamesOf(parts: seq<string>, known: seq<string>, stops: seq<string>): seq<string>
    decreases |parts|
  {
    if |parts| == 0 then []
    else
      var name := NameIn(parts[|parts| - 1], known, stops);
      NamesOf(parts[..|parts| - 1], known, stops) + (if name.Some? && name.value != "" then [name.value] else [])
  }

  /** The loop of `_extract_multiple_players` over the pieces. */
  method FindNames(parts: seq<string>, known: seq<string>, stops: seq<string>) returns (players: seq<string>)
    ensures players == NamesOf(parts, known, stops)
  {
    players := [];
    for i := 0 to |parts|
      invariant players == NamesOf(parts[..i], known, stops)
    {
      assert parts[..i + 1][..i] == parts[..i];
      var name := FindName(parts[i], known, stops);
      if name.Some? && name.value != "" {
        players := players + [name.value];
      }
    }
    assert parts[..|parts|] == parts;
  }

  /** `_extract_multiple_players` */
  method ExtractMultiplePlayers(message: string) returns (players: seq<string>)
    ensures players == NamesOf(PlayerPieces(message), KnownPlayers, StopWords)
  {
    players := FindNames(PlayerPieces(message), KnownPlayers, StopWords);
  }

  /**
   * At most one name per piece, in the pieces' order, and each is the
   * name found in a piece.
   */
  lemma NamesOfPieces(parts: seq<string>, known: seq<string>, stops: seq<string>)
    ensures |NamesOf(parts, known, stops)| <= |parts|
    ensures forall n <- NamesOf(parts, known, stops) :: exists p <- parts :: NameIn(p, known, stops) == Some(n)
    ensures forall k | 0 <= k <= |parts| :: NamesOf(parts[..k], known, stops) <= NamesOf(parts, known, stops)
  {
    NamesAtMost(parts, known, stops);
    NamesFromPieces(parts, known, stops);
    forall k | 0 <= k <= |parts|
      ensures NamesOf(parts[..k], known, stops) <= NamesOf(parts, known, stops)
    {
      NamesPrefix(parts, known, stops, k);
    }
  }

  lemma {:induction false} NamesAtMost(parts: seq<string>, known: seq<string>, stops: seq<string>)
    ensures |NamesOf(parts, known, stops)| <= |parts|
    decreases |parts|
  {
    if |parts| > 0 {
      NamesAtMost(parts[..|parts| - 1], known, stops);
    }
  }

  lemma {:induction false} NamesFromPieces(parts: seq<string>, known: seq<string>, stops: seq<string>)
    ensures forall n <- NamesOf(parts, known, stops) :: exists p <- parts :: NameIn(p, known, stops) == Some(n)
    decreases |parts|
  {
    if |parts| > 0 {
      var init := parts[..|parts| - 1];
      var last := parts[|parts| - 1];
      var name := NameIn(last, known, stops);
      var extra := if name.Some? && name.value != "" then [name.value] else [];
      assert NamesOf(parts, known, stops) == NamesOf(init, known, stops) + extra;
      NamesFromPieces(init, known, stops);
      forall n <- NamesOf(parts, known, stops)
        ensures exists p <- parts :: NameIn(p, known, stops) == Some(n)
      {
        if n in NamesOf(init, known, stops) {
          var p :| p in init && NameIn(p, known, stops) == Some(n);
          assert p in parts;
        } else {
          assert n in extra && last in parts;
        }
      }
    }
  }

  lemma {:induction false} NamesPrefix(parts: seq<string>, known: seq<string>, stops: seq<string>, k: nat)
    requires k <= |parts|
    ensures NamesOf(parts[..k], known, stops) <= NamesOf(parts, known, stops)
    decreases |parts|
  {
    if k < |parts| {
      var init := parts[..|parts| - 1];
      assert parts[..k] == init[..k];
      NamesPrefix(init, known, stops, k);
    } else {
      assert parts[..k] == parts;
    }
  }

  /** The pieces put back together with the separator are the message after the replacements. */
  lemma PiecesRejoin(message: string)
    ensures Join("|", PlayerPieces(message))
      == Replace(Replace(Replace(message, " and ", "|"), " vs ", "|"), ",", "|")
    ensures forall p <- PlayerPieces(message) :: '|' !in p
  {
    JoinSplitOn(Replace(Replace(Replace(message, " and ", "|"), " vs ", "|"), ",", "|"), '|');
  }

  /** The ids of the names the database finds, in order. */
  function FoundIds(find: string -> Option<int>, names: seq<string>): (ids: seq<int>)
    ensures |ids| <= |names|
    decreases |names|
  {
    if |names| == 0 then []
    else
      var id := find(names[|names| - 1]);
      FoundIds(find, names[..|names| - 1]) + (if id.Some? then [id.value] else [])
  }

  // ---------------------------------------------------------------------
  // Hidden gems

  const Roles: seq<string> := ["batsman", "bowler", "all-rounder", "wicket-keeper"]

  /** The search text for hidden gems: the title-cased role, or "player". */
  function GemQuery(role: Option<string>): string {
    "underrated " + (if role.Some? then role.value else "player") + " good performance low cost"
  }

  /**
   * The role asked for is the first of batsman, bowler, all-rounder and
   * wicket-keeper that occurs in the lower-cased message.
   */
  lemma GemRoleOrder(message: string)
    ensures var role := FirstContained(Roles, ToLower(message));
      (role.None? <==> forall r <- Roles :: !Contains(ToLower(message), r))
      && (role.Some? ==> exists i | 0 <= i < |Roles| :: (Roles[i] == role.value
            && Contains(ToLower(message), Roles[i]) && forall j | 0 <= j < i :: !Contains(ToLower(message), Roles[j])))
  {
    FirstContainedSpec(Roles, ToLower(message));
  }

  // ---------------------------------------------------------------------
  // The handler

  /** What the handler hands back: a reply, or the error a missing service raises. */
  datatype Reply = Sent(text: string) | Raised

  /** `valuation_model`: one player's valuation, and the comparison of several. */
  datatype Valuator = Valuator(calculate: int -> Option<Json>, compare: seq<int> -> seq<Json>)

  /** A reply that opens with `p` is not a text whose first character differs. */
  lemma OpenersDiffer(t: string, p: string, u: string)
    requires StartsWith(t, p) && |p| > 0 && |u| > 0 && u[0] != p[0]
    ensures t != u
  {
  }

  /** What a formatted query result opens with: the failure text, the empty-result text, or the chart mark. */
  lemma QueryTextOpeners(f: Formats, result: Json, query: string)
    ensures var t := QueryResultText(f, result, query);
      StartsWith(t, QueryFailed) || t == NoResults || StartsWith(t, ChartMark)
  {
    QueryResultListing(f, result, query);
    if Truthy(FieldOr(result, "success", JNull)) && Truthy(FieldOr(result, "data", JList([]))) {
      ResultsListing(f, query, Items(FieldOr(result, "data", JList([]))));
    }
  }

  /** A text with one of those openings is not the ranking apology: a failure text differs at index 33. */
  lemma OpenersNotApology(t: string)
    requires StartsWith(t, QueryFailed) || t == NoResults || StartsWith(t, ChartMark)
    ensures t != RankingApology
  {
    if StartsWith(t, QueryFailed) {
      assert t[33] == QueryFailed[33] == 'q' && RankingApology[33] == 'r';
    } else if StartsWith(t, ChartMark) {
      OpenersDiffer(t, ChartMark, RankingApology);
    }
  }

  /** Neither a formatted query result nor a similar-players listing opens like the guidance text. */
  lemma OpenersNotGuidance(t: string)
    requires StartsWith(t, QueryFailed) || t == NoResults || StartsWith(t, ChartMark)
      || t == NoSimilar || StartsWith(t, SearchMark)
    ensures t != Guidance
  {
    if StartsWith(t, QueryFailed) {
      OpenersDiffer(t, QueryFailed, Guidance);
    } else if StartsWith(t, ChartMark) {
      OpenersDiffer(t, ChartMark, Guidance);
    } else if StartsWith(t, SearchMark) {
      OpenersDiffer(t, SearchMark, Guidance);
    }
  }

  class WhatsAppHandler {
    /** `ai_response`, None when its import failed. */
    const ai: Option<Responder>
    /** `redis_cache` */
    const cache: Cache
    /** The database the pattern router queries. */
    const db: Db
    /** `text_to_sql`, None when its import failed. */
    const sql: Option<Service>
    /** `vector_store.search_similar_players(query, limit)`, None when the import failed. */
    const vectors: Option<(string, int) -> seq<Json>>
    /** `valuation_model`, None when its import failed. */
    const valuation: Option<Valuator>
    /** `_find_player`: the player with full stats; None when absent or on error. */
    const findPlayer: string -> Option<Json>
    /** `_find_player_by_name`: the player's id; None when absent or on error. */
    const findByName: string -> Option<int>

    /** The text-to-SQL service works on the same cache and database. */
    predicate Valid() {
      sql.Some? ==> sql.value.cache == cache && sql.value.db == db
    }

    constructor (ai: Option<Responder>, cache: Cache, db: Db, sql: Option<Service>,
                 vectors: Option<(string, int) -> seq<Json>>, valuation: Option<Valuator>,
                 findPlayer: string -> Option<Json>, findByName: string -> Option<int>)
      requires sql.Some? ==> sql.value.cache == cache && sql.value.db == db
      ensures Valid()
      ensures this.ai == ai && this.cache == cache && this.db == db && this.sql == sql
      ensures this.vectors == vectors && this.valuation == valuation
      ensures this.findPlayer == findPlayer && this.findByName == findByName
    {
      this.ai := ai;
      this.cache := cache;
      this.db := db;
      this.sql := sql;
      this.vectors := vectors;
      this.valuation := valuation;
      this.findPlayer := findPlayer;
      this.findByName := findByName;
    }

    // -------------------------------------------------------------------
    // What each handler answers

    /** `_handle_player_stats` */
    function StatsReply(g: Responder, message: string): Reply {
      StatsFor(g, message, PlayerName(message))
    }

    /** `_handle_player_stats` once the name has been extracted. */
    function StatsFor(g: Responder, message: string, name: Option<string>): Reply {
      if name.None? || name.value == "" then Sent(NoNameForStats)
      else StatsOfPlayer(g, message, name.value)
    }

    /** `_handle_player_stats` after the search counter: the stats, suggestions, or not found. */
    function StatsOfPlayer(g: Responder, message: string, name: string): Reply {
      var player := findPlayer(name);
      if player.None? || !Truthy(player.value) then
        if vectors.None? then Raised
        else
          var similar := vectors.value(name, 3);
          if |similar| > 0 then Sent(DidYouMean(name) + Concat(Bullets(g.fmt, similar)))
          else Sent(NotFoundInDb(name))
      else
        var text := PlayerStatsText(g.fmt, player.value);
        if |text| == 0 || |Strip(text)| < 10 then Sent(StatsFallback(g.fmt, player.value))
        else Sent(text)
    }

    /** `_handle_valuation`; the `simple_valuation` import always fails, so `valuation_model` answers. */
    function ValuationReply(g: Responder, message: string): Reply {
      ValuationFor(g, message, PlayerName(message))
    }

    /** `_handle_valuation` once the name has been extracted. */
    function ValuationFor(g: Responder, message: string, name: Option<string>): Reply {
      if name.None? || name.value == "" then Sent(NoNameForValue)
      else
        var id := findByName(name.value);
        if id.None? then Sent(NotFound(name.value))
        else
          var v := if valuation.Some? then valuation.value.calculate(id.value) else None;
          if v.None? || !Truthy(v.value) then Sent(NoValuation)
          else Sent(ValuationText(g.fmt, v.value))
    }

    /** `_handle_comparison` */
    function ComparisonReply(g: Responder, message: string): Reply {
      var names := NamesOf(PlayerPieces(message), KnownPlayers, StopWords);
      if |names| < 2 then Sent(NeedTwoPlayers)
      else
        var ids := FoundIds(findByName, names);
        if |ids| < 2 then Sent(TooFewFound)
        else if valuation.None? then Raised
        else Sent(ComparisonText(g.fmt, valuation.value.compare(ids)))
    }

    /** `_handle_hidden_gems` */
    function GemsReply(g: Responder, message: string): Reply {
      var role := FirstContained(Roles, ToLower(message));
      var query := GemQuery(if role.Some? then Some(Title(role.value)) else None);
      if vectors.None? then Raised
      else
        var similar := vectors.value(query, 5);
        if |similar| == 0 then Sent(NoGems)
        else Sent(SimilarText(g.fmt, similar))
    }

    /** The pattern router's answer: a matched pattern whose query the database answers. */
    function RouterAnswer(message: string): Option<QueryResult> {
      var pattern := MatchQuery(message);
      if pattern.None? || SqlMap(pattern.value).None? then None
      else
        var q := SqlMap(pattern.value).value;
        if db.answer(q).None? then None
        else Some(QueryResult(true, None, Some(q), db.answer(q), Some(|db.answer(q).value|)))
    }

    /** `_handle_ranking` */
    function RankingReply(g: Responder, message: string): Reply
      requires Valid()
      reads cache
    {
      var routed := RouterAnswer(message);
      if routed.Some? && routed.value.success then
        Sent(QueryResultText(g.fmt, ResultJson(routed.value), message))
      else if sql.Some? then
        Sent(QueryResultText(g.fmt, ResultJson(sql.value.Answer(message)), message))
      else Sent(RankingApology)
    }

    /** `_handle_general_query` */
    function GeneralReply(g: Responder, message: string): Reply
      requires Valid()
      reads cache
    {
      var routed := RouterAnswer(message);
      if routed.Some? && routed.value.success then
        Sent(QueryResultText(g.fmt, ResultJson(routed.value), message))
      else if sql.Some? && sql.value.Answer(message).success then
        Sent(QueryResultText(g.fmt, ResultJson(sql.value.Answer(message)), message))
      else if vectors.Some? && |vectors.value(message, 5)| > 0 then
        Sent(SimilarText(g.fmt, vectors.value(message, 5)))
      else Sent(Guidance)
    }

    /** `process_message`: the unavailable text without the AI service, else the intent's handler. */
    function Reply(message: string): Reply
      requires Valid()
      reads cache
    {
      if ai.None? then Sent(Unavailable)
      else
        var g := ai.value;
        var intent := DetectIntent(message).intent;
        if intent == PlayerStats then StatsReply(g, message)
        else if intent == Valuation then ValuationReply(g, message)
        else if intent == Comparison then ComparisonReply(g, message)
        else if intent == HiddenGems then GemsReply(g, message)
        else if intent == Ranking then RankingReply(g, message)
        else GeneralReply(g, message)
    }

    /** `_handle_ranking` apologises exactly when the router fails and there is no text-to-SQL service. */
    lemma RankingApologyWhen(g: Responder, message: string)
      requires Valid()
      ensures RankingReply(g, message) == Sent(RankingApology)
        <==> !(RouterAnswer(message).Some? && RouterAnswer(message).value.success) && sql.None?
    {
      var routed := RouterAnswer(message);
      if routed.Some? && routed.value.success {
        QueryTextOpeners(g.fmt, ResultJson(routed.value), message);
        OpenersNotApology(QueryResultText(g.fmt, ResultJson(routed.value), message));
      } else if sql.Some? {
        QueryTextOpeners(g.fmt, ResultJson(sql.value.Answer(message)), message);
        OpenersNotApology(QueryResultText(g.fmt, ResultJson(sql.value.Answer(message)), message));
      }
    }

    /**
     * The general chain gives the guidance text exactly when the router,
     * the text-to-SQL service and the vector search all come back empty.
     */
    lemma GuidanceWhen(g: Responder, message: string)
      requires Valid()
      ensures GeneralReply(g, message) == Sent(Guidance)
        <==> !(RouterAnswer(message).Some? && RouterAnswer(message).value.success)
             && !(sql.Some? && sql.value.Answer(message).success)
             && !(vectors.Some? && |vectors.value(message, 5)| > 0)
    {
      var routed := RouterAnswer(message);
      if routed.Some? && routed.value.success {
        QueryTextOpeners(g.fmt, ResultJson(routed.value), message);
        OpenersNotGuidance(QueryResultText(g.fmt, ResultJson(routed.value), message));
      } else if sql.Some? && sql.value.Answer(message).success {
        QueryTextOpeners(g.fmt, ResultJson(sql.value.Answer(message)), message);
        OpenersNotGuidance(QueryResultText(g.fmt, ResultJson(sql.value.Answer(message)), message));
      } else if vectors.Some? && |vectors.value(message, 5)| > 0 {
        SimilarListing(g.fmt, vectors.value(message, 5));
        OpenersNotGuidance(SimilarText(g.fmt, vectors.value(message, 5)));
      }
    }

    /** The cache entries a message may change: its SQL entry and its player's search counter. */
    function Touched(message: string): set<string> {
      {SqlKey(message)} + CounterKeys(PlayerName(message))
    }

    /** The search counter of a name found, if any. */
    function CounterKeys(name: Option<string>): set<string> {
      if name.Some? then {SearchKey(name.value)} else {}
    }

    // -------------------------------------------------------------------
    // The handlers

    method ProcessMessage(message: string, sender: string) returns (r: Reply)
      requires Valid()
      modifies cache, db
      ensures r == old(Reply(message))
      ensures cache.now == old(cache.now) && cache.up == old(cache.up)
      ensures SameExcept(old(cache.store), cache.store, Touched(message))
      ensures old(CachedSqlSafe(cache)) ==> CachedSqlSafe(cache)
      ensures old(ExecutedSafe(db)) ==> ExecutedSafe(db)
    {
      if ai.None? {
        return Sent(Unavailable);
      }
      var g := ai.value;
      var intent := DetectIntent(message).intent;
      if intent == PlayerStats {
        r := HandlePlayerStats(g, message);
      } else if intent == Valuation {
        r := HandleValuation(g, message);
      } else if intent == Comparison {
        r := HandleComparison(g, message);
      } else if intent == HiddenGems {
        r := HandleHiddenGems(g, message);
      } else if intent == Ranking {
        r := HandleRanking(g, message);
      } else {
        r := HandleGeneralQuery(g, message);
      }
    }

    /** `_handle_player_stats`: the search counter goes up before the lookup. */
    method HandlePlayerStats(g: Responder, message: string) returns (r: Reply)
      modifies cache
      ensures r == StatsReply(g, message)
      ensures cache.now == old(cache.now) && cache.up == old(cache.up)
      ensures SameExcept(old(cache.store), cache.store, Touched(message))
      ensures old(CachedSqlSafe(cache)) ==> CachedSqlSafe(cache)
    {
      var name := ExtractPlayerName(message);
      r := StatsOfName(g, message, name);
      SameExceptWiden(old(cache.store), cache.store, CounterKeys(name), Touched(message));
    }

    /** `_handle_player_stats` after the name extraction. */
    method StatsOfName(g: Responder, message: string, name: Option<string>) returns (r: Reply)
      modifies cache
      ensures r == StatsFor(g, message, name)
      ensures cache.now == old(cache.now) && cache.up == old(cache.up)
      ensures SameExcept(old(cache.store), cache.store, CounterKeys(name))
      ensures old(CachedSqlSafe(cache)) ==> CachedSqlSafe(cache)
    {
      if name.None? || name.value == "" {
        return Sent(NoNameForStats);
      }
      ghost var before := cache.store;
      var count := cache.IncrementSearch(name.value);
      if SqlEntriesSafe(before) && cache.store != before {
        StoreOtherKeepsSafe(before, SearchKey(name.value), JInt(count), cache.now + SearchTtl);
      }
      r := ReplyStats(g, message, name.value);
    }

    /** `_handle_player_stats` after the search counter. */
    method ReplyStats(g: Responder, message: string, name: string) returns (r: Reply)
      ensures r == StatsOfPlayer(g, message, name)
    {
      var player := findPlayer(name);
      if player.None? || !Truthy(player.value) {
        if vectors.None? {
          return Raised;
        }
        var similar := vectors.value(name, 3);
        if |similar| > 0 {
          var text := AppendAll(DidYouMean(name), Bullets(g.fmt, similar));
          return Sent(text);
        }
        return Sent(NotFoundInDb(name));
      }
      var response := FormatWhatsappResponse(g, message, player.value, "player_stats");
      DispatchStats(g, message, player.value);
      if |response| == 0 || |Strip(response)| < 10 {
        return Sent(StatsFallback(g.fmt, player.value));
      }
      return Sent(response);
    }

    /** `_handle_valuation` */
    method HandleValuation(g: Responder, message: string) returns (r: Reply)
      ensures r == ValuationReply(g, message)
    {
      var name := ExtractPlayerName(message);
      r := ValueOfName(g, message, name);
    }

    /** `_handle_valuation` after the name extraction. */
    method ValueOfName(g: Responder, message: string, name: Option<string>) returns (r: Reply)
      ensures r == ValuationFor(g, message, name)
    {
      if name.None? || name.value == "" {
        return Sent(NoNameForValue);
      }
      var id := findByName(name.value);
      if id.None? {
        return Sent(NotFound(name.value));
      }
      var v := if valuation.Some? then valuation.value.calculate(id.value) else None;
      if v.None? || !Truthy(v.value) {
        return Sent(NoValuation);
      }
      var text := FormatWhatsappResponse(g, message, v.value, "valuation");
      DispatchValuation(g, message, v.value);
      return Sent(text);
    }

    /** The loop of `_handle_comparison` collecting the ids of the players found. */
    method CollectIds(names: seq<string>) returns (ids: seq<int>)
      ensures ids == FoundIds(findByName, names)
    {
      ids := [];
      for i := 0 to |names|
        invariant ids == FoundIds(findByName, names[..i])
      {
        assert names[..i + 1][..i] == names[..i];
        var id := findByName(names[i]);
        if id.Some? {
          ids := ids + [id.value];
        }
      }
      assert names[..|names|] == names;
    }

    /** `_handle_comparison` */
    method HandleComparison(g: Responder, message: string) returns (r: Reply)
      ensures r == ComparisonReply(g, message)
    {
      var players := ExtractMultiplePlayers(message);
      if |players| < 2 {
        return Sent(NeedTwoPlayers);
      }
      var ids := CollectIds(players);
      if |ids| < 2 {
        return Sent(TooFewFound);
      }
      if valuation.None? {
        return Raised;
      }
      var text := FormatWhatsappResponse(g, message, JList(valuation.value.compare(ids)), "comparison");
      DispatchComparison(g, message, JList(valuation.value.compare(ids)));
      return Sent(text);
    }

    /** `_handle_hidden_gems` */
    method HandleHiddenGems(g: Responder, message: string) returns (r: Reply)
      ensures r == GemsReply(g, message)
    {
      var found := FindFirst(Roles, ToLower(message));
      var role := if found.Some? then Some(Title(found.value)) else None;
      var query := GemQuery(role);
      if vectors.None? {
        return Raised;
      }
      var similar := vectors.value(query, 5);
      if |similar| == 0 {
        return Sent(NoGems);
      }
      var text := FormatWhatsappResponse(g, message, JList(similar), "similar_players");
      DispatchSimilar(g, message, JList(similar));
      return Sent(text);
    }

    /** The pattern router step shared by the ranking and general handlers. */
    method TryRouter(message: string) returns (result: Option<QueryResult>)
      modifies db
      ensures result == RouterAnswer(message)
      ensures old(ExecutedSafe(db)) ==> ExecutedSafe(db)
    {
      var pattern := MatchQuery(message);
      if pattern.None? {
        return None;
      }
      MatchedPatternHasSql(message);
      result := SimpleQueries.ExecuteQuery(pattern.value, db);
    }

    /** `_handle_ranking` */
    method HandleRanking(g: Responder, message: string) returns (r: Reply)
      requires Valid()
      modifies cache, db
      ensures r == old(RankingReply(g, message))
      ensures cache.now == old(cache.now) && cache.up == old(cache.up)
      ensures SameExcept(old(cache.store), cache.store, Touched(message))
      ensures old(CachedSqlSafe(cache)) ==> CachedSqlSafe(cache)
      ensures old(ExecutedSafe(db)) ==> ExecutedSafe(db)
    {
      var routed := TryRouter(message);
      if routed.Some? && routed.value.success {
        var text := FormatWhatsappResponse(g, message, ResultJson(routed.value), "query_result");
        DispatchQueryResult(g, message, ResultJson(routed.value));
        return Sent(text);
      }
      if sql.Some? {
        var result := SqlAnswer(message);
        var text := FormatWhatsappResponse(g, message, ResultJson(result), "query_result");
        DispatchQueryResult(g, message, ResultJson(result));
        return Sent(text);
      }
      return Sent(RankingApology);
    }

    /** `_handle_general_query` */
    method HandleGeneralQuery(g: Responder, message: string) returns (r: Reply)
      requires Valid()
      modifies cache, db
      ensures r == old(GeneralReply(g, message))
      ensures cache.now == old(cache.now) && cache.up == old(cache.up)
      ensures SameExcept(old(cache.store), cache.store, Touched(message))
      ensures old(CachedSqlSafe(cache)) ==> CachedSqlSafe(cache)
      ensures old(ExecutedSafe(db)) ==> ExecutedSafe(db)
    {
      var routed := TryRouter(message);
      if routed.Some? && routed.value.success {
        var text := FormatWhatsappResponse(g, message, ResultJson(routed.value), "query_result");
        DispatchQueryResult(g, message, ResultJson(routed.value));
        return Sent(text);
      }
      if sql.Some? {
        var result := SqlAnswer(message);
        if result.success {
          var text := FormatWhatsappResponse(g, message, ResultJson(result), "query_result");
          DispatchQueryResult(g, message, ResultJson(result));
          return Sent(text);
        }
      }
      if vectors.Some? {
        var similar := vectors.value(message, 5);
        if |similar| > 0 {
          var text := FormatWhatsappResponse(g, message, JList(similar), "similar_players");
          DispatchSimilar(g, message, JList(similar));
          return Sent(text);
        }
      }
      return Sent(Guidance);
    }

    /** `text_to_sql.natural_language_to_data(message)` from the handler's side. */
    method SqlAnswer(message: string) returns (result: QueryResult)
      requires Valid() && sql.Some?
      modifies cache, db
      ensures result == old(sql.value.Answer(message))
      ensures cache.now == old(cache.now) && cache.up == old(cache.up)
      ensures SameExcept(old(cache.store), cache.store, Touched(message))
      ensures old(CachedSqlSafe(cache)) ==> CachedSqlSafe(cache)
      ensures old(ExecutedSafe(db)) ==> ExecutedSafe(db)
    {
      result := sql.value.NaturalLanguageToData(message);
    }
  }
}
