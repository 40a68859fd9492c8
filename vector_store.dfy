// The player vector store: the searchable text built for a player, the
// payload stored with each point, the formatting of search hits and the bulk
// loader's success counter. The sentence encoder and the Qdrant client are
// abstracted: whether an upsert goes through is an oracle, and a search
// returns the hits the oracle gives.

module VectorStore {
  import opened Strings
  import opened Values
  import opened AiResponse

  // ---------------------------------------------------------------------
  // create_player_text

  /** The five profile fields, `player_data.get(key, '')`, in order. */
  function ProfileParts(d: Json): (ps: seq<Json>)
    ensures |ps| == 5
  {
    [FieldOr(d, "name", JStr("")), FieldOr(d, "role", JStr("")), FieldOr(d, "country", JStr("")),
     FieldOr(d, "batting_style", JStr("")), FieldOr(d, "bowling_style", JStr(""))]
  }

  /** `stat.get('format') == 'IPL'` */
  predicate IsIpl(stat: Json) {
    Field(stat, "format") == Some(JStr("IPL"))
  }

  /** The three texts added for an IPL batting row. */
  function BattingSummary(f: Formats, stat: Json): seq<Json> {
    [JStr("IPL runs: " + Show(f, FieldOr(stat, "runs", JInt(0)))),
     JStr("Average: " + Show(f, FieldOr(stat, "average", JInt(0)))),
     JStr("Strike rate: " + Show(f, FieldOr(stat, "strike_rate", JInt(0))))]
  }

  /** The two texts added for an IPL bowling row. */
  function BowlingSummary(f: Formats, stat: Json): seq<Json> {
    [JStr("IPL wickets: " + Show(f, FieldOr(stat, "wickets", JInt(0)))),
     JStr("Economy: " + Show(f, FieldOr(stat, "economy", JInt(0))))]
  }

  /** The batting texts of a list of stats rows, in row order. */
  function BattingParts(f: Formats, stats: seq<Json>): seq<Json>
    decreases |stats|
  {
    if |stats| == 0 then []
    else
      var last := stats[|stats| - 1];
      BattingParts(f, stats[..|stats| - 1]) + (if IsIpl(last) then BattingSummary(f, last) else [])
  }

  /** The bowling texts of a list of stats rows, in row order. */
  function BowlingParts(f: Formats, stats: seq<Json>): seq<Json>
    decreases |stats|
  {
    if |stats| == 0 then []
    else
      var last := stats[|stats| - 1];
      BowlingParts(f, stats[..|stats| - 1]) + (if IsIpl(last) then BowlingSummary(f, last) else [])
  }

  /** `player_data[key]` as a list of rows when the key is present; no rows otherwise. */
  function StatsList(d: Json, key: string): seq<Json> {
    match Field(d, key)
    case Some(v) => Items(v)
    case None => []
  }

  /** All parts before filtering: the profile, then batting texts, then bowling texts. */
  function TextParts(f: Formats, d: Json): seq<Json> {
    ProfileParts(d) + BattingParts(f, StatsList(d, "batting_stats")) + BowlingParts(f, StatsList(d, "bowling_stats"))
  }

  /** `[str(p) for p in parts if p]` */
  function Shown(f: Formats, parts: seq<Json>): seq<string>
    decreases |parts|
  {
    if |parts| == 0 then []
    else
      var last := parts[|parts| - 1];
      Shown(f, parts[..|parts| - 1]) + (if Truthy(last) then [Show(f, last)] else [])
  }

  /** The text `create_player_text` returns. */
  function PlayerText(f: Formats, d: Json): string {
    Join(" ", Shown(f, TextParts(f, d)))
  }

  lemma BattingStep(f: Formats, stats: seq<Json>, i: nat)
    requires i < |stats|
    ensures BattingParts(f, stats[..i + 1])
      == BattingParts(f, stats[..i]) + (if IsIpl(stats[i]) then BattingSummary(f, stats[i]) else [])
  {
    assert stats[..i + 1][..i] == stats[..i];
  }

  lemma BowlingStep(f: Formats, stats: seq<Json>, i: nat)
    requires i < |stats|
    ensures BowlingParts(f, stats[..i + 1])
      == BowlingParts(f, stats[..i]) + (if IsIpl(stats[i]) then BowlingSummary(f, stats[i]) else [])
  {
    assert stats[..i + 1][..i] == stats[..i];
  }

  /** The batting loop of `create_player_text`: three texts appended per IPL row. */
  method AppendBatting(f: Formats, start: seq<Json>, stats: seq<Json>) returns (parts: seq<Json>)
    ensures parts == start + BattingParts(f, stats)
  {
    parts := start;
    for i := 0 to |stats|
      invariant parts == start + BattingParts(f, stats[..i])
    {
      BattingStep(f, stats, i);
      var stat := stats[i];
      ghost var before := parts;
      if Field(stat, "format") == Some(JStr("IPL")) {
        parts := parts + [JStr("IPL runs: " + Show(f, FieldOr(stat, "runs", JInt(0))))];
        parts := parts + [JStr("Average: " + Show(f, FieldOr(stat, "average", JInt(0))))];
        parts := parts + [JStr("Strike rate: " + Show(f, FieldOr(stat, "strike_rate", JInt(0))))];
        assert parts == before + BattingSummary(f, stat);
      }
    }
    assert stats[..|stats|] == stats;
  }

  /** The bowling loop of `create_player_text`: two texts appended per IPL row. */
  method AppendBowling(f: Formats, start: seq<Json>, stats: seq<Json>) returns (parts: seq<Json>)
    ensures parts == start + BowlingParts(f, stats)
  {
    parts := start;
    for i := 0 to |stats|
      invariant parts == start + BowlingParts(f, stats[..i])
    {
      BowlingStep(f, stats, i);
      var stat := stats[i];
      ghost var before := parts;
      if Field(stat, "format") == Some(JStr("IPL")) {
        parts := parts + [JStr("IPL wickets: " + Show(f, FieldOr(stat, "wickets", JInt(0))))];
        parts := parts + [JStr("Economy: " + Show(f, FieldOr(stat, "economy", JInt(0))))];
        assert parts == before + BowlingSummary(f, stat);
      }
    }
    assert stats[..|stats|] == stats;
  }

  /** `create_player_text`: the profile fields, the two stats loops, then the filter and the join. */
  method CreatePlayerText(f: Formats, d: Json) returns (text: string)
    ensures text == PlayerText(f, d)
  {
    var parts := ProfileParts(d);
    if Has(d, "batting_stats") {
      parts := AppendBatting(f, parts, Items(Field(d, "batting_stats").value));
    } else {
      assert parts == ProfileParts(d) + BattingParts(f, StatsList(d, "batting_stats"));
    }
    var profileAndBatting := parts;
    if Has(d, "bowling_stats") {
      parts := AppendBowling(f, parts, Items(Field(d, "bowling_stats").value));
    } else {
      assert parts == profileAndBatting + BowlingParts(f, StatsList(d, "bowling_stats"));
    }
    text := Join(" ", Shown(f, parts));
  }

  /** Filtering a concatenation filters each side. */
  lemma {:induction false} ShownAppend(f: Formats, a: seq<Json>, b: seq<Json>)
    ensures Shown(f, a + b) == Shown(f, a) + Shown(f, b)
    decreases |b|
  {
    if |b| > 0 {
      var init := b[..|b| - 1];
      assert (a + b)[..|a + b| - 1] == a + init;
      assert (a + b)[|a + b| - 1] == b[|b| - 1];
      ShownAppend(f, a, init);
    } else {
      assert a + b == a;
    }
  }

  /** Empty and `None` parts are dropped; every other part is kept as its text. */
  lemma ShownOne(f: Formats, p: Json)
    ensures Shown(f, [p]) == if Truthy(p) then [Show(f, p)] else []
  {
    assert [p][..0] == [];
  }

  /** The batting texts of a concatenation are those of each side. */
  lemma {:induction false} BattingAppend(f: Formats, a: seq<Json>, b: seq<Json>)
    ensures BattingParts(f, a + b) == BattingParts(f, a) + BattingParts(f, b)
    decreases |b|
  {
    if |b| > 0 {
      var init := b[..|b| - 1];
      assert (a + b)[..|a + b| - 1] == a + init;
      assert (a + b)[|a + b| - 1] == b[|b| - 1];
      BattingAppend(f, a, init);
    } else {
      assert a + b == a;
    }
  }

  /** The bowling texts of a concatenation are those of each side. */
  lemma {:induction false} BowlingAppend(f: Formats, a: seq<Json>, b: seq<Json>)
    ensures BowlingParts(f, a + b) == BowlingParts(f, a) + BowlingParts(f, b)
    decreases |b|
  {
    if |b| > 0 {
      var init := b[..|b| - 1];
      assert (a + b)[..|a + b| - 1] == a + init;
      assert (a + b)[|a + b| - 1] == b[|b| - 1];
      BowlingAppend(f, a, init);
    } else {
      assert a + b == a;
    }
  }

  /** A row whose format is not IPL contributes no text, wherever it stands. */
  lemma NonIplIgnored(f: Formats, a: seq<Json>, s: Json, b: seq<Json>)
    requires !IsIpl(s)
    ensures BattingParts(f, a + [s] + b) == BattingParts(f, a + b)
    ensures BowlingParts(f, a + [s] + b) == BowlingParts(f, a + b)
  {
    NonIplNothing(f, s);
    var ab := BattingParts(f, a);
    BattingAppend(f, a + [s], b);
    BattingAppend(f, a, [s]);
    BattingAppend(f, a, b);
    assert ab + [] == ab;
    var aw := BowlingParts(f, a);
    BowlingAppend(f, a + [s], b);
    BowlingAppend(f, a, [s]);
    BowlingAppend(f, a, b);
    assert aw + [] == aw;
  }

  /** A row of another format alone gives no texts. */
  lemma NonIplNothing(f: Formats, s: Json)
    requires !IsIpl(s)
    ensures BattingParts(f, [s]) == [] && BowlingParts(f, [s]) == []
  {
    assert [s][..0] == [];
  }

  /** The number of IPL rows. */
  function IplCount(stats: seq<Json>): nat
    decreases |stats|
  {
    if |stats| == 0 then 0
    else IplCount(stats[..|stats| - 1]) + (if IsIpl(stats[|stats| - 1]) then 1 else 0)
  }

  /** Each IPL batting row gives three texts and each IPL bowling row two; other rows give none. */
  lemma {:induction false} SummaryCounts(f: Formats, stats: seq<Json>)
    ensures |BattingParts(f, stats)| == 3 * IplCount(stats)
    ensures |BowlingParts(f, stats)| == 2 * IplCount(stats)
    decreases |stats|
  {
    if |stats| > 0 {
      SummaryCounts(f, stats[..|stats| - 1]);
    }
  }

  /** All summary texts are non-empty, so the filter keeps every one of them. */
  lemma {:induction false} SummariesKept(f: Formats, stats: seq<Json>)
    ensures |Shown(f, BattingParts(f, stats))| == 3 * IplCount(stats)
    ensures |Shown(f, BowlingParts(f, stats))| == 2 * IplCount(stats)
    decreases |stats|
  {
    if |stats| > 0 {
      var init := stats[..|stats| - 1];
      var last := stats[|stats| - 1];
      SummariesKept(f, init);
      if IsIpl(last) {
        ShownAppend(f, BattingParts(f, init), BattingSummary(f, last));
        ShownAppend(f, BowlingParts(f, init), BowlingSummary(f, last));
        SummaryKept(f, last);
      } else {
        assert BattingParts(f, stats) == BattingParts(f, init);
        assert BowlingParts(f, stats) == BowlingParts(f, init);
      }
    }
  }

  /** The summary texts are never empty, so none is filtered out. */
  lemma SummaryKept(f: Formats, stat: Json)
    ensures |Shown(f, BattingSummary(f, stat))| == 3
    ensures |Shown(f, BowlingSummary(f, stat))| == 2
  {
    BattingSummaryTruthy(f, stat, BattingSummary(f, stat));
    AllTruthyShown(f, BattingSummary(f, stat));
    BowlingSummaryTruthy(f, stat, BowlingSummary(f, stat));
    AllTruthyShown(f, BowlingSummary(f, stat));
  }

  /** The three batting texts are non-empty. */
  lemma BattingSummaryTruthy(f: Formats, stat: Json, b: seq<Json>)
    requires b == BattingSummary(f, stat)
    ensures |b| == 3 && forall i | 0 <= i < |b| :: Truthy(b[i])
  {
    assert Truthy(b[0]) && Truthy(b[1]) && Truthy(b[2]);
  }

  /** The two bowling texts are non-empty. */
  lemma BowlingSummaryTruthy(f: Formats, stat: Json, w: seq<Json>)
    requires w == BowlingSummary(f, stat)
    ensures |w| == 2 && forall i | 0 <= i < |w| :: Truthy(w[i])
  {
    assert Truthy(w[0]) && Truthy(w[1]);
  }

  /** Parts that are all truthy are all shown. */
  lemma {:induction false} AllTruthyShown(f: Formats, parts: seq<Json>)
    requires forall i | 0 <= i < |parts| :: Truthy(parts[i])
    ensures |Shown(f, parts)| == |parts|
    decreases |parts|
  {
    if |parts| > 0 {
      AllTruthyShown(f, parts[..|parts| - 1]);
    }
  }

  /**
   * The kept texts in order: the kept profile fields, then the batting
   * texts, then the bowling texts.
   */
  lemma TextOrder(f: Formats, d: Json)
    ensures Shown(f, TextParts(f, d))
      == Shown(f, ProfileParts(d)) + Shown(f, BattingParts(f, StatsList(d, "batting_stats")))
         + Shown(f, BowlingParts(f, StatsList(d, "bowling_stats")))
  {
    var p := ProfileParts(d);
    var b := BattingParts(f, StatsList(d, "batting_stats"));
    var w := BowlingParts(f, StatsList(d, "bowling_stats"));
    ShownAppend(f, p + b, w);
    ShownAppend(f, p, b);
  }

  /** A non-empty string name opens the text. */
  lemma NameLeads(f: Formats, d: Json, name: string)
    requires Field(d, "name") == Some(JStr(name)) && name != ""
    ensures StartsWith(PlayerText(f, d), name)
  {
    var parts := TextParts(f, d);
    FirstTextPart(f, d, parts);
    LeadingShown(f, parts, name);
  }

  /** The first part of the text is the name field. */
  lemma FirstTextPart(f: Formats, d: Json, parts: seq<Json>)
    requires parts == TextParts(f, d)
    ensures |parts| > 0 && parts[0] == FieldOr(d, "name", JStr(""))
  {
    assert parts[0] == ProfileParts(d)[0];
  }

  /** A truthy text shown first opens the joined text. */
  lemma LeadingShown(f: Formats, parts: seq<Json>, name: string)
    requires |parts| > 0 && parts[0] == JStr(name) && name != ""
    ensures StartsWith(Join(" ", Shown(f, parts)), name)
  {
    assert parts == [JStr(name)] + parts[1..];
    ShownAppend(f, [JStr(name)], parts[1..]);
    ShownOne(f, JStr(name));
    JoinStartsWith(" ", Shown(f, parts));
  }

  // ---------------------------------------------------------------------
  // The collection: add_player, bulk_add_players, search_similar_players

  /** The payload stored with a player's point. */
  function Payload(id: Json, d: Json, text: string): (p: Json)
    ensures p.JObj?
  {
    JObj([("player_id", id), ("name", FieldOr(d, "name", JStr(""))), ("role", FieldOr(d, "role", JStr(""))),
          ("country", FieldOr(d, "country", JStr(""))), ("text", JStr(text))])
  }

  /** A payload carries every key a search reads. */
  predicate Readable(payload: Json) {
    Has(payload, "player_id") && Has(payload, "name") && Has(payload, "role") && Has(payload, "country")
  }

  /** `player.get('cricbuzz_id') or player.get('id')` */
  function PlayerKey(p: Json): Json {
    var cid := FieldOr(p, "cricbuzz_id", JNull);
    if Truthy(cid) then cid else FieldOr(p, "id", JNull)
  }

  /** The payload `add_player` stores for a player, its text built with `fmt`. */
  function PointFor(fmt: Formats, id: Json, d: Json): Json {
    Payload(id, d, PlayerText(fmt, d))
  }

  /** Whether `bulk_add_players` stores player `p`: a truthy id and an accepted upsert. */
  predicate Stores(accepts: (Json, Json) -> bool, fmt: Formats, p: Json) {
    var key := PlayerKey(p);
    Truthy(key) && accepts(key, PointFor(fmt, key, p))
  }

  /** The number of players `bulk_add_players` stores from `players`. */
  function Added(accepts: (Json, Json) -> bool, fmt: Formats, players: seq<Json>): nat
    decreases |players|
  {
    if |players| == 0 then 0
    else Added(accepts, fmt, players[..|players| - 1]) + (if Stores(accepts, fmt, players[|players| - 1]) then 1 else 0)
  }

  /** The points after `bulk_add_players(players)`, starting from `start`. */
  function StoredAll(accepts: (Json, Json) -> bool, fmt: Formats, start: map<Json, Json>, players: seq<Json>): map<Json, Json>
    decreases |players|
  {
    if |players| == 0 then start
    else
      var before := StoredAll(accepts, fmt, start, players[..|players| - 1]);
      var p := players[|players| - 1];
      if Stores(accepts, fmt, p) then before[PlayerKey(p) := PointFor(fmt, PlayerKey(p), p)] else before
  }

  /** The collection's points, id to payload; whether an upsert goes through is decided by `accepts`. */
  class Collection {
    var points: map<Json, Json>
    /** Whether encoding the text and upserting the point succeed; a failure is an exception. */
    const accepts: (Json, Json) -> bool
    /** Formatting of non-string values, as `str` does it. */
    const fmt: Formats

    /** Every stored payload carries the keys a search reads. */
    ghost predicate Valid()
      reads this
    {
      forall id | id in points :: Readable(points[id])
    }

    constructor (accepts: (Json, Json) -> bool, fmt: Formats)
      ensures points == map[] && this.accepts == accepts && this.fmt == fmt
      ensures Valid()
    {
      points := map[];
      this.accepts := accepts;
      this.fmt := fmt;
    }

    /** `add_player`: on success the point is stored under its id, replacing an older one; on error nothing changes. */
    method AddPlayer(id: Json, d: Json) returns (ok: bool)
      requires Valid()
      modifies this
      ensures ok == accepts(id, PointFor(fmt, id, d))
      ensures points == if ok then old(points)[id := PointFor(fmt, id, d)] else old(points)
      ensures Valid()
    {
      var text := CreatePlayerText(fmt, d);
      var payload := Payload(id, d, text);
      assert payload == PointFor(fmt, id, d);
      assert Readable(payload) by { PayloadReadable(id, d, text); }
      if !accepts(id, payload) {
        return false;
      }
      StoredReadable(points, id, payload, points[id := payload]);
      points := points[id := payload];
      return true;
    }

    /** `bulk_add_players`: a player without a truthy id is skipped; the others count when their add succeeds. */
    method BulkAddPlayers(players: seq<Json>) returns (count: int)
      requires Valid()
      modifies this
      ensures count == Added(accepts, fmt, players)
      ensures points == StoredAll(accepts, fmt, old(points), players)
      ensures Valid()
    {
      count := 0;
      for i := 0 to |players|
        invariant count == Added(accepts, fmt, players[..i])
        invariant points == StoredAll(accepts, fmt, old(points), players[..i])
        invariant Valid()
      {
        assert players[..i + 1][..i] == players[..i];
        var player := players[i];
        var key := PlayerKey(player);
        if Truthy(key) {
          var ok := AddPlayer(key, player);
          if ok {
            count := count + 1;
          }
        }
      }
      assert players[..|players|] == players;
    }
  }

  /** The number of players with a truthy id. */
  function WithKey(players: seq<Json>): nat
    decreases |players|
  {
    if |players| == 0 then 0
    else WithKey(players[..|players| - 1]) + (if Truthy(PlayerKey(players[|players| - 1])) then 1 else 0)
  }

  /** The bulk count never exceeds the number of players with a truthy id, nor the number of players. */
  lemma {:induction false} AddedBound(accepts: (Json, Json) -> bool, fmt: Formats, players: seq<Json>)
    ensures Added(accepts, fmt, players) <= WithKey(players) <= |players|
    decreases |players|
  {
    if |players| > 0 {
      AddedBound(accepts, fmt, players[..|players| - 1]);
    }
  }

  /** In fields whose key at `i` appears nowhere before, that key finds the value at `i`. */
  lemma {:induction false} LookupAt(fs: seq<(string, Json)>, i: nat)
    requires i < |fs|
    requires forall j | 0 <= j < i :: fs[j].0 != fs[i].0
    ensures Lookup(fs, fs[i].0) == Some(fs[i].1)
    decreases i
  {
    if i > 0 {
      assert fs[0].0 != fs[i].0;
      assert fs[1..][i - 1] == fs[i];
      LookupAt(fs[1..], i - 1);
    }
  }

  /** In fields with distinct keys, each key finds its own value. */
  lemma DistinctFields(fs: seq<(string, Json)>)
    requires forall i, j | 0 <= i < j < |fs| :: fs[i].0 != fs[j].0
    ensures forall i | 0 <= i < |fs| :: Lookup(fs, fs[i].0) == Some(fs[i].1)
  {
    forall i | 0 <= i < |fs|
      ensures Lookup(fs, fs[i].0) == Some(fs[i].1)
    {
      LookupAt(fs, i);
    }
  }

  /** The five payload keys differ pairwise, and none is the score key. */
  lemma PayloadKeysDistinct()
    ensures "player_id" != "name" && "player_id" != "role" && "player_id" != "country" && "player_id" != "text"
    ensures "name" != "role" && "name" != "country" && "name" != "text"
    ensures "role" != "country" && "role" != "text" && "country" != "text"
    ensures "player_id" != "similarity_score" && "name" != "similarity_score"
    ensures "role" != "similarity_score" && "country" != "similarity_score"
  {
    assert "name"[0] != "role"[0] && "name"[0] != "text"[0] && "role"[0] != "text"[0];
  }

  /** The payload holds the id, the three profile fields and the text under their keys. */
  lemma PayloadFields(id: Json, d: Json, text: string)
    ensures var p := Payload(id, d, text);
      && Field(p, "player_id") == Some(id)
      && Field(p, "name") == Some(FieldOr(d, "name", JStr("")))
      && Field(p, "role") == Some(FieldOr(d, "role", JStr("")))
      && Field(p, "country") == Some(FieldOr(d, "country", JStr("")))
      && Field(p, "text") == Some(JStr(text))
  {
    var fs := Payload(id, d, text).fields;
    PayloadKeysDistinct();
    assert forall i, j | 0 <= i < j < |fs| :: fs[i].0 != fs[j].0;
    DistinctFields(fs);
    assert fs[0].0 == "player_id" && fs[1].0 == "name" && fs[2].0 == "role";
    assert fs[3].0 == "country" && fs[4].0 == "text";
  }

  /** The payload of `add_player` has every key a search reads. */
  lemma PayloadReadable(id: Json, d: Json, text: string)
    ensures Readable(Payload(id, d, text))
  {
    PayloadFields(id, d, text);
  }

  /** A search hit: the stored payload and its similarity score. */
  datatype Hit = Hit(payload: Json, score: real)

  /** The Qdrant search for a query, a limit and a score threshold; `None` stands for any error. */
  type Searcher = (string, int, real) -> Option<seq<Hit>>

  /** The result dict for one hit. */
  function HitRow(h: Hit): (r: Json)
    requires Readable(h.payload)
  {
    JObj([("player_id", Field(h.payload, "player_id").value), ("name", Field(h.payload, "name").value),
          ("role", Field(h.payload, "role").value), ("country", Field(h.payload, "country").value),
          ("similarity_score", JReal(h.score))])
  }

  /** The formatted hits, or `None` when a payload lacks a key (the `KeyError` the source catches). */
  function HitRows(hits: seq<Hit>): Option<seq<Json>>
    decreases |hits|
  {
    if |hits| == 0 then Some([])
    else
      var last := hits[|hits| - 1];
      match HitRows(hits[..|hits| - 1])
      case None => None
      case Some(rows) => if Readable(last.payload) then Some(rows + [HitRow(last)]) else None
  }

  /** What `search_similar_players` returns for what the search gave. */
  function SearchResult(found: Option<seq<Hit>>): seq<Json> {
    match found
    case None => []
    case Some(hits) => HitRows(hits).GetOr([])
  }

  /** `search_similar_players`: any error gives `[]`. */
  method SearchSimilarPlayers(search: Searcher, query: string, limit: int, threshold: real) returns (players: seq<Json>)
    ensures players == SearchResult(search(query, limit, threshold))
  {
    var found := search(query, limit, threshold);
    if found.None? {
      return [];
    }
    var hits := found.value;
    players := [];
    for i := 0 to |hits|
      invariant HitRows(hits[..i]) == Some(players)
    {
      assert hits[..i + 1][..i] == hits[..i];
      var hit := hits[i];
      if !(Has(hit.payload, "player_id") && Has(hit.payload, "name") && Has(hit.payload, "role")
           && Has(hit.payload, "country")) {
        UnreadableStops(hits, i);
        return [];
      }
      players := players + [HitRow(hit)];
    }
    assert hits[..|hits|] == hits;
  }

  /** One hit that lacks a key spoils the whole search. */
  lemma {:induction false} UnreadableStops(hits: seq<Hit>, i: nat)
    requires i < |hits| && !Readable(hits[i].payload)
    ensures HitRows(hits).None?
    decreases |hits|
  {
    if i < |hits| - 1 {
      UnreadableStops(hits[..|hits| - 1], i);
    }
  }

  /** When every hit is readable there is one row per hit, in hit order. */
  lemma {:induction false} HitRowsAll(hits: seq<Hit>)
    requires forall i | 0 <= i < |hits| :: Readable(hits[i].payload)
    ensures HitRows(hits).Some? && |HitRows(hits).value| == |hits|
    ensures forall i | 0 <= i < |hits| :: HitRows(hits).value[i] == HitRow(hits[i])
    decreases |hits|
  {
    if |hits| > 0 {
      var init := hits[..|hits| - 1];
      forall i | 0 <= i < |init| ensures Readable(init[i].payload) {
        assert init[i] == hits[i];
      }
      HitRowsAll(init);
      var rows := HitRows(init).value;
      assert HitRows(hits) == Some(rows + [HitRow(hits[|hits| - 1])]);
      forall i | 0 <= i < |hits| ensures HitRows(hits).value[i] == HitRow(hits[i]) {
        if i < |init| {
          assert init[i] == hits[i];
        }
      }
    }
  }

  /**
   * The search lists one row per hit, in order, with the hit's fields, when
   * every payload is readable, and nothing otherwise.
   */
  lemma HitRowsExact(hits: seq<Hit>)
    ensures (forall i | 0 <= i < |hits| :: Readable(hits[i].payload))
      ==> |SearchResult(Some(hits))| == |hits|
          && forall i | 0 <= i < |hits| :: SearchResult(Some(hits))[i] == HitRow(hits[i])
    ensures (exists i | 0 <= i < |hits| :: !Readable(hits[i].payload)) ==> SearchResult(Some(hits)) == []
  {
    if forall i | 0 <= i < |hits| :: Readable(hits[i].payload) {
      HitRowsAll(hits);
    } else {
      var i :| 0 <= i < |hits| && !Readable(hits[i].payload);
      UnreadableStops(hits, i);
    }
  }

  /** Hits on points stored by `add_player` are always readable, so the search lists them all. */
  lemma StoredHitsListed(c: Collection, hits: seq<Hit>)
    requires c.Valid()
    requires forall i | 0 <= i < |hits| :: hits[i].payload in c.points.Values
    ensures |SearchResult(Some(hits))| == |hits|
  {
    forall i | 0 <= i < |hits| ensures Readable(hits[i].payload) {
      var id := KeyOfValue(c.points, hits[i].payload);
    }
    HitRowsAll(hits);
  }

  /** Storing a readable payload keeps every stored payload readable. */
  lemma StoredReadable(points: map<Json, Json>, id: Json, payload: Json, after: map<Json, Json>)
    requires forall k | k in points :: Readable(points[k])
    requires Readable(payload) && after == points[id := payload]
    ensures forall k | k in after :: Readable(after[k])
  {
  }

  /** A value of a map is stored under some key. */
  lemma KeyOfValue<K, V>(m: map<K, V>, v: V) returns (k: K)
    requires v in m.Values
    ensures k in m && m[k] == v
  {
    k :| k in m && m[k] == v;
  }

  /** The row of a hit holds the payload's id, name, role and country and the score. */
  lemma HitRowFields(h: Hit)
    requires Readable(h.payload)
    ensures var row := HitRow(h);
      && Field(row, "player_id") == Field(h.payload, "player_id")
      && Field(row, "name") == Field(h.payload, "name")
      && Field(row, "role") == Field(h.payload, "role")
      && Field(row, "country") == Field(h.payload, "country")
      && Field(row, "similarity_score") == Some(JReal(h.score))
  {
    var fs := HitRow(h).fields;
    PayloadKeysDistinct();
    assert forall i, j | 0 <= i < j < |fs| :: fs[i].0 != fs[j].0;
    DistinctFields(fs);
    assert fs[0].0 == "player_id" && fs[1].0 == "name" && fs[2].0 == "role";
    assert fs[3].0 == "country" && fs[4].0 == "similarity_score";
  }

  /** Round trip: a player's payload found by a search gives back the player's id, name, role and country. */
  lemma PayloadRoundTrip(id: Json, d: Json, text: string, score: real)
    ensures Readable(Payload(id, d, text))
    ensures var row := HitRow(Hit(Payload(id, d, text), score));
      && Field(row, "player_id") == Some(id)
      && Field(row, "name") == Some(FieldOr(d, "name", JStr("")))
      && Field(row, "role") == Some(FieldOr(d, "role", JStr("")))
      && Field(row, "country") == Some(FieldOr(d, "country", JStr("")))
      && Field(row, "similarity_score") == Some(JReal(score))
  {
    PayloadReadable(id, d, text);
    PayloadFields(id, d, text);
    HitRowFields(Hit(Payload(id, d, text), score));
  }
}
