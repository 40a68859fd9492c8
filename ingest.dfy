// The ingestion script (scripts/scrape_players.py): scraped players saved to
// the database with an upsert per (player, format), then cached and indexed;
// the scraping loop with its counters; the reading of a custom player list.
// The tables are maps held by a `Database` object; the scraper's fetch, the
// Redis server and the vector store's encoder are the oracles their own
// modules take.

module Ingest {
  import opened Strings
  import opened Values
  import opened Scraper
  import RedisCache
  import VectorStore

  // ---------------------------------------------------------------------
  // Rows

  /** A row of the players table, as `save_player_to_db` creates it. */
  datatype PlayerRow = PlayerRow(
    cricbuzzId: int, name: string, country: Option<string>, role: Option<string>,
    battingStyle: Option<string>, bowlingStyle: Option<string>, profileUrl: Option<string>)

  /** A stats row: the player it belongs to, its format and its stats. */
  datatype Row<T> = Row(player: int, format: string, stat: T)

  /** A stats table, keyed by the row's autoincrement id. */
  type Table<T> = map<int, Row<T>>

  /** `player_data.get(key)` on the bio. */
  function BioGet(bio: Bio, k: BioKey): Option<string> {
    if k in bio then Some(bio[k]) else None
  }

  /** The player row built from scraped details; the name defaults to "Unknown". */
  function NewPlayer(d: PlayerDetails): (p: PlayerRow)
    ensures p.cricbuzzId == d.cricbuzzId && p.profileUrl == Some(d.profileUrl)
    ensures NameKey in d.bio ==> p.name == d.bio[NameKey]
  {
    PlayerRow(d.cricbuzzId, BioGet(d.bio, NameKey).GetOr("Unknown"), BioGet(d.bio, CountryKey),
      BioGet(d.bio, RoleKey), BioGet(d.bio, BattingStyleKey), BioGet(d.bio, BowlingStyleKey),
      Some(d.profileUrl))
  }

  // ---------------------------------------------------------------------
  // The player data as a dictionary, which the cache and the vector store receive

  function BioFields(bio: Bio): seq<(string, Json)> {
    (if NameKey in bio then [("name", JStr(bio[NameKey]))] else [])
    + (if CountryKey in bio then [("country", JStr(bio[CountryKey]))] else [])
    + (if RoleKey in bio then [("role", JStr(bio[RoleKey]))] else [])
    + (if BattingStyleKey in bio then [("batting_style", JStr(bio[BattingStyleKey]))] else [])
    + (if BowlingStyleKey in bio then [("bowling_style", JStr(bio[BowlingStyleKey]))] else [])
  }

  function BattingJson(s: BattingStat): Json {
    JObj([("format", JStr(s.format)), ("matches", JInt(s.matches)), ("innings", JInt(s.innings)),
          ("runs", JInt(s.runs)), ("highest", JStr(s.highest)), ("average", JReal(s.average)),
          ("strike_rate", JReal(s.strikeRate)), ("hundreds", JInt(s.hundreds)),
          ("fifties", JInt(s.fifties)), ("fours", JInt(s.fours)), ("sixes", JInt(s.sixes))])
  }

  function BowlingJson(s: BowlingStat): Json {
    JObj([("format", JStr(s.format)), ("matches", JInt(s.matches)), ("innings", JInt(s.innings)),
          ("wickets", JInt(s.wickets)), ("average", JReal(s.average)), ("economy", JReal(s.economy)),
          ("strike_rate", JReal(s.strikeRate)), ("five_wicket_haul", JInt(s.fiveWicketHaul)),
          ("ten_wicket_haul", JInt(s.tenWicketHaul))])
  }

  function BattingJsons(ss: seq<BattingStat>): (js: seq<Json>)
    ensures |js| == |ss|
    decreases |ss|
  {
    if |ss| == 0 then [] else BattingJsons(ss[..|ss| - 1]) + [BattingJson(ss[|ss| - 1])]
  }

  function BowlingJsons(ss: seq<BowlingStat>): (js: seq<Json>)
    ensures |js| == |ss|
    decreases |ss|
  {
    if |ss| == 0 then [] else BowlingJsons(ss[..|ss| - 1]) + [BowlingJson(ss[|ss| - 1])]
  }

  /** The dictionary `extract_player_details` returns: id and URL, the bio, then the two tables. */
  function DetailsJson(d: PlayerDetails): Json {
    JObj([("cricbuzz_id", JInt(d.cricbuzzId)), ("profile_url", JStr(d.profileUrl))]
      + BioFields(d.bio)
      + [("batting_stats", JList(BattingJsons(d.batting))), ("bowling_stats", JList(BowlingJsons(d.bowling)))])
  }

  /** The vector store keys a saved player by its Cricbuzz id whenever that id is not 0. */
  lemma DetailsKey(d: PlayerDetails)
    requires d.cricbuzzId != 0
    ensures Field(DetailsJson(d), "cricbuzz_id") == Some(JInt(d.cricbuzzId))
    ensures VectorStore.PlayerKey(DetailsJson(d)) == JInt(d.cricbuzzId)
  {
  }

  // ---------------------------------------------------------------------
  // Upserting the stats of one player

  /** Row `id` exists and belongs to player `pid` with format `f`. */
  predicate Matches<T>(table: Table<T>, id: int, pid: int, f: string) {
    id in table && table[id].player == pid && table[id].format == f
  }

  /** Every row id lies in [0, next): the counter is past every id it gave. */
  predicate Below<T>(table: Table<T>, next: int) {
    0 <= next && forall id | id in table :: 0 <= id < next
  }

  /**
   * `query(...).filter(player_id == pid, format == f).first()` over the
   * committed rows with ids below `n`: the matching row with the lowest id.
   */
  function FirstRow<T>(table: Table<T>, pid: int, f: string, n: int): (r: Option<int>)
    ensures r.Some? ==> (0 <= r.value < n && Matches(table, r.value, pid, f)
      && forall id | 0 <= id < r.value :: !Matches(table, id, pid, f))
    ensures r.None? ==> forall id | 0 <= id < n :: !Matches(table, id, pid, f)
    decreases n
  {
    if n <= 0 then None
    else
      var below := FirstRow(table, pid, f, n - 1);
      if below.Some? then below
      else if Matches(table, n - 1, pid, f) then Some(n - 1)
      else None
  }

  /**
   * The table after the upsert loop. Every lookup sees only `table`, the
   * rows committed before the loop, because the session does not flush the
   * rows it adds: a stat whose (player, format) has a committed row
   * overwrites the lowest such row, and any other stat is inserted under the
   * next id, even when an earlier stat of the loop inserted the same format.
   * Returns the table and the next free row id.
   */
  function Upserted<T>(table: Table<T>, next: int, pid: int, stats: seq<T>, format: T -> string): (r: (Table<T>, int))
    ensures r.1 >= next
    decreases |stats|
  {
    if |stats| == 0 then (table, next)
    else
      var (t, n) := Upserted(table, next, pid, stats[..|stats| - 1], format);
      var s := stats[|stats| - 1];
      var found := FirstRow(table, pid, format(s), next);
      if found.Some? then (t[found.value := Row(pid, format(s), s)], n)
      else (t[n := Row(pid, format(s), s)], n + 1)
  }

  /** The formats of a list of stats. */
  function FormatsOf<T>(stats: seq<T>, format: T -> string): set<string> {
    set i | 0 <= i < |stats| :: format(stats[i])
  }

  /** The stats the loop inserts, in order: those whose format has no committed row. */
  function NewStats<T>(table: Table<T>, next: int, pid: int, stats: seq<T>, format: T -> string): (added: seq<T>)
    ensures |added| <= |stats|
    decreases |stats|
  {
    if |stats| == 0 then []
    else
      var s := stats[|stats| - 1];
      NewStats(table, next, pid, stats[..|stats| - 1], format)
        + (if FirstRow(table, pid, format(s), next).None? then [s] else [])
  }

  /** Row `id` is the committed row that the lookup finds for some scraped stat. */
  predicate Picked<T>(table: Table<T>, next: int, pid: int, stats: seq<T>, format: T -> string, id: int) {
    exists i | 0 <= i < |stats| :: FirstRow(table, pid, format(stats[i]), next) == Some(id)
  }

  lemma UpsertStep<T>(table: Table<T>, next: int, pid: int, stats: seq<T>, format: T -> string, i: nat)
    requires i < |stats|
    ensures var (t, n) := Upserted(table, next, pid, stats[..i], format);
      var found := FirstRow(table, pid, format(stats[i]), next);
      Upserted(table, next, pid, stats[..i + 1], format)
        == if found.Some? then (t[found.value := Row(pid, format(stats[i]), stats[i])], n)
           else (t[n := Row(pid, format(stats[i]), stats[i])], n + 1)
  {
    assert stats[..i + 1][..i] == stats[..i];
  }

  lemma FormatsSnoc<T>(stats: seq<T>, format: T -> string)
    requires |stats| > 0
    ensures FormatsOf(stats, format) == FormatsOf(stats[..|stats| - 1], format) + {format(stats[|stats| - 1])}
  {
    var init := stats[..|stats| - 1];
    forall f | f in FormatsOf(stats, format) ensures f in FormatsOf(init, format) + {format(stats[|stats| - 1])} {
      var i :| 0 <= i < |stats| && format(stats[i]) == f;
      if i < |init| {
        assert init[i] == stats[i];
      }
    }
    forall f | f in FormatsOf(init, format) ensures f in FormatsOf(stats, format) {
      var i :| 0 <= i < |init| && format(init[i]) == f;
      assert stats[i] == init[i];
    }
  }

  lemma PickedSnoc<T>(table: Table<T>, next: int, pid: int, stats: seq<T>, format: T -> string, id: int)
    requires |stats| > 0
    ensures Picked(table, next, pid, stats, format, id) <==>
      Picked(table, next, pid, stats[..|stats| - 1], format, id)
      || FirstRow(table, pid, format(stats[|stats| - 1]), next) == Some(id)
  {
    var init := stats[..|stats| - 1];
    if Picked(table, next, pid, stats, format, id) {
      var i :| 0 <= i < |stats| && FirstRow(table, pid, format(stats[i]), next) == Some(id);
      if i < |init| {
        assert init[i] == stats[i];
      }
    }
    if Picked(table, next, pid, init, format, id) {
      var i :| 0 <= i < |init| && FirstRow(table, pid, format(init[i]), next) == Some(id);
      assert stats[i] == init[i];
    }
  }

  /**
   * The shape of the upsert: the ids are the committed ones and one new id
   * per inserted stat, numbered from `next` in the order of the stats; every
   * row keeps its player and format; a committed row the lookup never found
   * keeps its stats; every new row belongs to the player and has a scraped
   * format.
   */
  lemma {:induction false} UpsertShape<T>(table: Table<T>, next: int, pid: int, stats: seq<T>, format: T -> string)
    requires Below(table, next)
    ensures var (t, n) := Upserted(table, next, pid, stats, format);
      var added := NewStats(table, next, pid, stats, format);
      && n == next + |added|
      && (forall id :: id in t <==> id in table || next <= id < n)
      && (forall id | id in table :: t[id].player == table[id].player && t[id].format == table[id].format)
      && (forall id | id in table && !Picked(table, next, pid, stats, format, id) :: t[id] == table[id])
      && (forall i | 0 <= i < |added| :: t[next + i] == Row(pid, format(added[i]), added[i]))
      && (forall id | next <= id < n :: t[id].player == pid && t[id].format in FormatsOf(stats, format))
    decreases |stats|
  {
    if |stats| > 0 {
      var init := stats[..|stats| - 1];
      UpsertShape(table, next, pid, init, format);
      FormatsSnoc(stats, format);
      forall id | id in table
        ensures Picked(table, next, pid, stats, format, id) <==>
          Picked(table, next, pid, init, format, id)
          || FirstRow(table, pid, format(stats[|stats| - 1]), next) == Some(id)
      {
        PickedSnoc(table, next, pid, stats, format, id);
      }
    }
  }

  /**
   * A committed row found for the last stat of its format holds that stat:
   * later stats of other formats write other rows.
   */
  lemma {:induction false} UpsertLastWins<T>(table: Table<T>, next: int, pid: int, stats: seq<T>, format: T -> string, j: nat)
    requires j < |stats|
    requires forall i | j < i < |stats| :: format(stats[i]) != format(stats[j])
    requires FirstRow(table, pid, format(stats[j]), next).Some?
    ensures var k := FirstRow(table, pid, format(stats[j]), next).value;
      var t := Upserted(table, next, pid, stats, format).0;
      k in t && t[k] == Row(pid, format(stats[j]), stats[j])
    decreases |stats|
  {
    var init := stats[..|stats| - 1];
    if j < |stats| - 1 {
      assert forall i | j < i < |init| :: init[i] == stats[i];
      assert init[j] == stats[j];
      UpsertLastWins(table, next, pid, init, format, j);
    }
  }

  /** The upsert keeps every row's player and format, so a row that matched still matches. */
  lemma {:induction false} UpsertKeepsMatches<T>(table: Table<T>, next: int, pid: int, stats: seq<T>, format: T -> string,
                                                 id: int, p: int, f: string)
    requires Below(table, next) && Matches(table, id, p, f)
    ensures Matches(Upserted(table, next, pid, stats, format).0, id, p, f)
  {
    UpsertShape(table, next, pid, stats, format);
  }

  /** After the upsert every scraped format of the player has a row below the new counter. */
  lemma {:induction false} UpsertFindsEvery<T>(table: Table<T>, next: int, pid: int, stats: seq<T>, format: T -> string, i: nat)
    requires Below(table, next) && i < |stats|
    ensures var (t, n) := Upserted(table, next, pid, stats, format);
      FirstRow(t, pid, format(stats[i]), n).Some?
    decreases |stats|
  {
    var (t, n) := Upserted(table, next, pid, stats, format);
    var init := stats[..|stats| - 1];
    var (t', n') := Upserted(table, next, pid, init, format);
    var f := format(stats[i]);
    UpsertShape(table, next, pid, init, format);
    if i == |stats| - 1 {
      var found := FirstRow(table, pid, f, next);
      if found.Some? {
        assert t == t'[found.value := Row(pid, f, stats[i])] && n == n';
        assert Matches(t, found.value, pid, f);
      } else {
        assert t == t'[n' := Row(pid, f, stats[i])] && n == n' + 1;
        assert Matches(t, n', pid, f);
      }
    } else {
      assert init[i] == stats[i];
      UpsertFindsEvery(table, next, pid, init, format, i);
      var v := FirstRow(t', pid, f, n').value;
      var g := format(stats[|stats| - 1]);
      var found := FirstRow(table, pid, g, next);
      if found.Some? {
        assert t'[found.value].format == g;
        assert Matches(t, v, pid, f);
      } else {
        assert Matches(t, v, pid, f);
      }
    }
  }

  /** With every lookup of the stats finding a row, the loop inserts nothing. */
  lemma {:induction false} NoNewStats<T>(table: Table<T>, next: int, pid: int, stats: seq<T>, format: T -> string)
    requires forall i | 0 <= i < |stats| :: FirstRow(table, pid, format(stats[i]), next).Some?
    ensures NewStats(table, next, pid, stats, format) == []
    decreases |stats|
  {
    if |stats| > 0 {
      var init := stats[..|stats| - 1];
      assert forall i | 0 <= i < |init| :: init[i] == stats[i];
      NoNewStats(table, next, pid, init, format);
    }
  }

  /**
   * Saving the same stats a second time adds no row: every scraped format
   * now has a committed row, so every lookup finds one.
   */
  lemma UpsertAgainAddsNothing<T>(table: Table<T>, next: int, pid: int, stats: seq<T>, format: T -> string)
    requires Below(table, next)
    ensures var (t1, n1) := Upserted(table, next, pid, stats, format);
      var (t2, n2) := Upserted(t1, n1, pid, stats, format);
      n2 == n1 && t2.Keys == t1.Keys
  {
    var (t1, n1) := Upserted(table, next, pid, stats, format);
    UpsertKeepsRows(table, next, pid, stats, format);
    forall i | 0 <= i < |stats| ensures FirstRow(t1, pid, format(stats[i]), n1).Some? {
      UpsertFindsEvery(table, next, pid, stats, format, i);
    }
    NoNewStats(t1, n1, pid, stats, format);
    UpsertKeys(t1, n1, pid, stats, format);
    var (t2, n2) := Upserted(t1, n1, pid, stats, format);
    assert Below(t1, n1);
    assert |NewStats(t1, n1, pid, stats, format)| == 0;
    assert n2 == n1;
    assert forall id :: id in t2 <==> id in t1;
    assert t2.Keys == t1.Keys;
  }

  /** The ids after the upsert: the committed ones and one per inserted stat from `next` on. */
  lemma UpsertKeys<T>(table: Table<T>, next: int, pid: int, stats: seq<T>, format: T -> string)
    requires Below(table, next)
    ensures var (t, n) := Upserted(table, next, pid, stats, format);
      n == next + |NewStats(table, next, pid, stats, format)|
      && forall id :: id in t <==> id in table || next <= id < n
  {
    UpsertShape(table, next, pid, stats, format);
  }

  /** The lookup for a format finds a committed row that already holds stat `s`. */
  predicate Held<T(==)>(table: Table<T>, next: int, pid: int, format: T -> string, s: T) {
    var r := FirstRow(table, pid, format(s), next);
    r.Some? && table[r.value] == Row(pid, format(s), s)
  }

  /** Stats that each sit in the row their lookup finds change nothing. */
  lemma {:induction false} UpsertUnchanged<T>(table: Table<T>, next: int, pid: int, stats: seq<T>, format: T -> string)
    requires forall i | 0 <= i < |stats| :: Held(table, next, pid, format, stats[i])
    ensures Upserted(table, next, pid, stats, format) == (table, next)
    decreases |stats|
  {
    if |stats| > 0 {
      var init := stats[..|stats| - 1];
      assert forall i | 0 <= i < |init| :: init[i] == stats[i];
      UpsertUnchanged(table, next, pid, init, format);
      var s := stats[|stats| - 1];
      assert Held(table, next, pid, format, s);
      var k := FirstRow(table, pid, format(s), next).value;
      assert table[k := Row(pid, format(s), s)] == table;
    }
  }

  /** Two tables whose rows below `n` match alike give the same lookup. */
  lemma {:induction false} FirstRowAlike<T>(a: Table<T>, b: Table<T>, pid: int, f: string, n: int)
    requires forall id | 0 <= id < n :: Matches(a, id, pid, f) <==> Matches(b, id, pid, f)
    ensures FirstRow(a, pid, f, n) == FirstRow(b, pid, f, n)
    decreases n
  {
    if n > 0 {
      FirstRowAlike(a, b, pid, f, n - 1);
    }
  }

  /** A lookup that finds a row below `m` finds the same row below any larger bound. */
  lemma {:induction false} FirstRowExtend<T>(a: Table<T>, pid: int, f: string, m: int, n: int)
    requires m <= n && FirstRow(a, pid, f, m).Some?
    ensures FirstRow(a, pid, f, n) == FirstRow(a, pid, f, m)
    decreases n - m
  {
    if m < n {
      FirstRowExtend(a, pid, f, m, n - 1);
    }
  }

  /** The lookup of a format with a committed row finds the same row after the upsert. */
  lemma UpsertKeepsFirst<T>(table: Table<T>, next: int, pid: int, stats: seq<T>, format: T -> string, f: string)
    requires Below(table, next) && FirstRow(table, pid, f, next).Some?
    ensures var (t, n) := Upserted(table, next, pid, stats, format);
      FirstRow(t, pid, f, n) == FirstRow(table, pid, f, next)
  {
    var (t, n) := Upserted(table, next, pid, stats, format);
    UpsertShape(table, next, pid, stats, format);
    forall id | 0 <= id < next ensures Matches(t, id, pid, f) <==> Matches(table, id, pid, f) {
    }
    FirstRowAlike(t, table, pid, f, next);
    FirstRowExtend(t, pid, f, next, n);
  }

  /**
   * A format the player has no committed row of, scraped once, ends up in
   * the row the lookup then finds, holding that stat.
   */
  lemma {:induction false} UpsertNewFormat<T>(table: Table<T>, next: int, pid: int, stats: seq<T>, format: T -> string, j: nat)
    requires Below(table, next) && j < |stats|
    requires FirstRow(table, pid, format(stats[j]), next).None?
    requires forall i | 0 <= i < |stats| && i != j :: format(stats[i]) != format(stats[j])
    ensures var (t, n) := Upserted(table, next, pid, stats, format);
      Held(t, n, pid, format, stats[j])
    decreases |stats|
  {
    var init := stats[..|stats| - 1];
    var f := format(stats[j]);
    if j == |stats| - 1 {
      forall i | 0 <= i < |init| ensures format(init[i]) != f {
        assert init[i] == stats[i];
      }
      NewFormatInserted(table, next, pid, stats, format);
    } else {
      assert init[j] == stats[j];
      assert forall i | 0 <= i < |init| :: init[i] == stats[i];
      UpsertNewFormat(table, next, pid, init, format, j);
      NewFormatKept(table, next, pid, stats, format, stats[j]);
    }
  }

  /** The last stat, of a format neither committed nor scraped before it, is inserted where the lookup then finds it. */
  lemma NewFormatInserted<T>(table: Table<T>, next: int, pid: int, stats: seq<T>, format: T -> string)
    requires Below(table, next) && |stats| > 0
    requires FirstRow(table, pid, format(stats[|stats| - 1]), next).None?
    requires format(stats[|stats| - 1]) !in FormatsOf(stats[..|stats| - 1], format)
    ensures var (t, n) := Upserted(table, next, pid, stats, format);
      Held(t, n, pid, format, stats[|stats| - 1])
  {
    var init := stats[..|stats| - 1];
    var s := stats[|stats| - 1];
    var f := format(s);
    var (t, n) := Upserted(table, next, pid, stats, format);
    var (t', n') := Upserted(table, next, pid, init, format);
    UpsertShape(table, next, pid, init, format);
    assert t == t'[n' := Row(pid, f, s)] && n == n' + 1;
    var r := FirstRow(t, pid, f, n);
    assert Matches(t, n', pid, f);
    assert r.Some? && r.value <= n';
    if r.value < n' {
      assert Matches(t', r.value, pid, f);
      if r.value < next {
        assert Matches(table, r.value, pid, f);
      }
      assert false;
    }
  }

  /** The upsert keeps the ids below the counter and every committed row's player and format. */
  lemma UpsertKeepsRows<T>(table: Table<T>, next: int, pid: int, stats: seq<T>, format: T -> string)
    requires Below(table, next)
    ensures var (t, n) := Upserted(table, next, pid, stats, format);
      Below(t, n) && forall id | id in table ::
        id in t && t[id].player == table[id].player && t[id].format == table[id].format
  {
    UpsertShape(table, next, pid, stats, format);
  }

  /** A stat held by the row its lookup finds stays held after a last stat of another format. */
  lemma NewFormatKept<T>(table: Table<T>, next: int, pid: int, stats: seq<T>, format: T -> string, x: T)
    requires Below(table, next) && |stats| > 0
    requires format(stats[|stats| - 1]) != format(x)
    requires var (t', n') := Upserted(table, next, pid, stats[..|stats| - 1], format);
      Held(t', n', pid, format, x)
    ensures var (t, n) := Upserted(table, next, pid, stats, format);
      Held(t, n, pid, format, x)
  {
    var init := stats[..|stats| - 1];
    var s := stats[|stats| - 1];
    var (f, g) := (format(x), format(s));
    var (t, n) := Upserted(table, next, pid, stats, format);
    var (t', n') := Upserted(table, next, pid, init, format);
    UpsertKeepsRows(table, next, pid, init, format);
    var found := FirstRow(table, pid, g, next);
    if found.Some? {
      assert t == t'[found.value := Row(pid, g, s)] && n == n';
      assert found.value in table;
      HeldAfterUpdate(t', n', pid, format, x, found.value, Row(pid, g, s));
    } else {
      assert t == t'[n' := Row(pid, g, s)] && n == n' + 1;
      HeldAfterInsert(t', n', pid, format, x, Row(pid, g, s));
    }
  }

  /** Overwriting a row of another format with a row of that format keeps a held stat held. */
  lemma HeldAfterUpdate<T>(t: Table<T>, n: int, pid: int, format: T -> string, x: T, k: int, row: Row<T>)
    requires Held(t, n, pid, format, x)
    requires k in t && t[k].player == row.player && t[k].format == row.format != format(x)
    ensures Held(t[k := row], n, pid, format, x)
  {
    FirstRowAlike(t[k := row], t, pid, format(x), n);
  }

  /** Appending a row of another format under the counter keeps a held stat held. */
  lemma HeldAfterInsert<T>(t: Table<T>, n: int, pid: int, format: T -> string, x: T, row: Row<T>)
    requires Held(t, n, pid, format, x) && Below(t, n) && row.format != format(x)
    ensures Held(t[n := row], n + 1, pid, format, x)
  {
    FirstRowAlike(t[n := row], t, pid, format(x), n + 1);
    assert FirstRow(t, pid, format(x), n + 1) == FirstRow(t, pid, format(x), n);
  }

  /**
   * With no format repeated among the stats, saving them a second time
   * gives the same tables as saving them once.
   */
  lemma UpsertIdempotent<T>(table: Table<T>, next: int, pid: int, stats: seq<T>, format: T -> string)
    requires Below(table, next)
    requires forall i, j | 0 <= i < j < |stats| :: format(stats[i]) != format(stats[j])
    ensures var once := Upserted(table, next, pid, stats, format);
      Upserted(once.0, once.1, pid, stats, format) == once
  {
    var (t1, n1) := Upserted(table, next, pid, stats, format);
    forall i | 0 <= i < |stats| ensures Held(t1, n1, pid, format, stats[i]) {
      var f := format(stats[i]);
      assert forall m | 0 <= m < |stats| && m != i :: format(stats[m]) != f by {
        forall m | 0 <= m < |stats| && m != i ensures format(stats[m]) != f {
          if m < i {} else {}
        }
      }
      if FirstRow(table, pid, f, next).Some? {
        UpsertLastWins(table, next, pid, stats, format, i);
        UpsertKeepsFirst(table, next, pid, stats, format, f);
      } else {
        UpsertNewFormat(table, next, pid, stats, format, i);
      }
    }
    UpsertUnchanged(t1, n1, pid, stats, format);
  }

  /**
   * A format the player has no committed row of, scraped twice in one
   * table, is inserted twice: the second lookup does not see the row the
   * first one added.
   */
  lemma RepeatedFormatTwoRows<T>(table: Table<T>, next: int, pid: int, a: T, b: T, format: T -> string)
    requires 0 <= next && format(a) == format(b) && FirstRow(table, pid, format(a), next).None?
    ensures Upserted(table, next, pid, [a, b], format)
      == (table[next := Row(pid, format(a), a)][next + 1 := Row(pid, format(b), b)], next + 2)
  {
    UpsertStep(table, next, pid, [a, b], format, 0);
    UpsertStep(table, next, pid, [a, b], format, 1);
    assert [a, b][..1] == [a] && [a, b][..0] == [] && [a, b][..2] == [a, b];
  }

  /**
   * Saving those two stats again adds no row but changes the first one: both
   * lookups now find it, and the second stat overwrites it.
   */
  lemma RepeatedFormatResaved<T>(table: Table<T>, next: int, pid: int, a: T, b: T, format: T -> string)
    requires Below(table, next) && a != b
    requires format(a) == format(b) && FirstRow(table, pid, format(a), next).None?
    ensures var once := Upserted(table, next, pid, [a, b], format);
      var again := Upserted(once.0, once.1, pid, [a, b], format);
      && again.1 == once.1 && next in once.0 && next in again.0
      && again.0[next] == Row(pid, format(b), b) && once.0[next] == Row(pid, format(a), a)
  {
    RepeatedFormatTwoRows(table, next, pid, a, b, format);
    var f := format(a);
    var t1 := table[next := Row(pid, f, a)][next + 1 := Row(pid, f, b)];
    var r := FirstRow(t1, pid, f, next + 2);
    assert Matches(t1, next, pid, f);
    assert r.Some? && r.value <= next;
    if r.value < next {
      assert Matches(table, r.value, pid, f);
      assert false;
    }
    UpsertStep(t1, next + 2, pid, [a, b], format, 0);
    UpsertStep(t1, next + 2, pid, [a, b], format, 1);
    assert [a, b][..1] == [a] && [a, b][..0] == [] && [a, b][..2] == [a, b];
  }

  /** With the player and every row's player in `players`, every row's player is there after the upsert. */
  lemma UpsertOwned<T>(table: Table<T>, next: int, pid: int, stats: seq<T>, format: T -> string, players: map<int, PlayerRow>)
    requires 1 <= next && pid in players
    requires forall id | id in table :: 1 <= id < next && table[id].player in players
    ensures var (t, n) := Upserted(table, next, pid, stats, format);
      forall id | id in t :: 1 <= id < n && t[id].player in players
  {
    UpsertShape(table, next, pid, stats, format);
  }

  /** The upsert loop of `save_player_to_db`; each lookup queries the committed rows. */
  method UpsertStats<T>(table: Table<T>, next: int, pid: int, stats: seq<T>, format: T -> string)
    returns (t: Table<T>, n: int)
    ensures (t, n) == Upserted(table, next, pid, stats, format)
  {
    t, n := table, next;
    for i := 0 to |stats|
      invariant (t, n) == Upserted(table, next, pid, stats[..i], format)
    {
      UpsertStep(table, next, pid, stats, format, i);
      var stat := stats[i];
      var found := FirstRow(table, pid, format(stat), next);
      if found.Some? {
        t := t[found.value := Row(pid, format(stat), stat)];
      } else {
        t := t[n := Row(pid, format(stat), stat)];
        n := n + 1;
      }
    }
    assert stats[..|stats|] == stats;
  }

  function BattingFormat(s: BattingStat): string { s.format }
  function BowlingFormat(s: BowlingStat): string { s.format }

  // ---------------------------------------------------------------------
  // The database

  /** The player table only grows, and rows already there are left as they were. */
  predicate Grows(before: map<int, PlayerRow>, after: map<int, PlayerRow>) {
    forall p | p in before :: p in after && after[p] == before[p]
  }

  /**
   * The three tables. Each autoincrement id has its counter; whether the
   * database answers is `up`: when it does not, the first query raises.
   */
  class Database {
    var players: map<int, PlayerRow>
    /** The unique index on `cricbuzz_id`: each Cricbuzz id to its player's id. */
    var byCricbuzz: map<int, int>
    var batting: Table<BattingStat>
    var bowling: Table<BowlingStat>
    var nextPlayer: int
    var nextBatting: int
    var nextBowling: int
    var up: bool

    /**
     * Ids are positive and below their counter; the index maps each player's
     * Cricbuzz id to that player and holds nothing else; every stats row
     * belongs to a player.
     */
    ghost predicate Valid()
      reads this
    {
      && 1 <= nextPlayer
      && (forall p | p in players :: 1 <= p < nextPlayer)
      && (forall p | p in players :: players[p].cricbuzzId in byCricbuzz && byCricbuzz[players[p].cricbuzzId] == p)
      && (forall c | c in byCricbuzz :: byCricbuzz[c] in players && players[byCricbuzz[c]].cricbuzzId == c)
      && 1 <= nextBatting && 1 <= nextBowling
      && (forall id | id in batting :: 1 <= id < nextBatting && batting[id].player in players)
      && (forall id | id in bowling :: 1 <= id < nextBowling && bowling[id].player in players)
    }

    constructor (up: bool)
      ensures Valid() && this.up == up
      ensures players == map[] && byCricbuzz == map[] && batting == map[] && bowling == map[]
      ensures nextPlayer == 1 && nextBatting == 1 && nextBowling == 1
    {
      players, byCricbuzz, batting, bowling := map[], map[], map[], map[];
      nextPlayer, nextBatting, nextBowling := 1, 1, 1;
      this.up := up;
    }

    /** `db.query(Player).filter(Player.cricbuzz_id == cid).first()`, through the index. */
    method FindPlayer(cid: int) returns (found: Option<int>)
      requires Valid()
      ensures found.Some? ==> found.value in players && players[found.value].cricbuzzId == cid
      ensures found.None? ==> forall p | p in players :: players[p].cricbuzzId != cid
    {
      if cid in byCricbuzz {
        return Some(byCricbuzz[cid]);
      }
      return None;
    }

    /**
     * The player part of `save_player_to_db`: the existing player with the
     * same Cricbuzz id is reused, unchanged; otherwise a new row is added
     * with the next id (the `flush` that assigns it).
     */
    method EnsurePlayer(d: PlayerDetails) returns (pid: int)
      requires Valid()
      modifies this
      ensures Valid()
      ensures pid in players && players[pid].cricbuzzId == d.cricbuzzId
      ensures d.cricbuzzId in old(byCricbuzz) ==>
        pid == old(byCricbuzz)[d.cricbuzzId] && players == old(players) && byCricbuzz == old(byCricbuzz)
      ensures d.cricbuzzId !in old(byCricbuzz) ==>
        pid == old(nextPlayer) && players == old(players)[pid := NewPlayer(d)]
        && byCricbuzz == old(byCricbuzz)[d.cricbuzzId := pid]
      ensures Grows(old(players), players) && old(byCricbuzz).Keys <= byCricbuzz.Keys
      ensures batting == old(batting) && bowling == old(bowling) && up == old(up)
      ensures nextBatting == old(nextBatting) && nextBowling == old(nextBowling)
    {
      var existing := FindPlayer(d.cricbuzzId);
      if existing.Some? {
        return existing.value;
      }
      pid := nextPlayer;
      players := players[pid := NewPlayer(d)];
      byCricbuzz := byCricbuzz[d.cricbuzzId := pid];
      nextPlayer := nextPlayer + 1;
    }

    /**
     * The tables part of `save_player_to_db`: the player is found or added,
     * then its stats are upserted and everything is committed. When the
     * database does not answer, nothing is written.
     */
    method SaveTables(d: PlayerDetails) returns (saved: Option<int>)
      requires Valid()
      modifies this
      ensures Valid() && up == old(up)
      ensures !old(up) ==> (saved.None? && players == old(players)
        && batting == old(batting) && bowling == old(bowling))
      ensures old(up) ==> saved.Some? && saved.value in players && players[saved.value].cricbuzzId == d.cricbuzzId
      ensures old(up) && d.cricbuzzId in old(byCricbuzz) ==>
        saved == Some(old(byCricbuzz)[d.cricbuzzId]) && players == old(players)
      ensures old(up) && d.cricbuzzId !in old(byCricbuzz) ==>
        saved == Some(old(nextPlayer)) && players == old(players)[old(nextPlayer) := NewPlayer(d)]
      ensures old(up) ==> ((batting, nextBatting)
        == Upserted(old(batting), old(nextBatting), saved.value, d.batting, BattingFormat))
      ensures old(up) ==> ((bowling, nextBowling)
        == Upserted(old(bowling), old(nextBowling), saved.value, d.bowling, BowlingFormat))
      ensures Grows(old(players), players) && old(byCricbuzz).Keys <= byCricbuzz.Keys
    {
      if !up {
        return None;
      }
      var pid := EnsurePlayer(d);
      var bat, nextBat := UpsertStats(batting, nextBatting, pid, d.batting, BattingFormat);
      var bowl, nextBowl := UpsertStats(bowling, nextBowling, pid, d.bowling, BowlingFormat);
      UpsertOwned(batting, nextBatting, pid, d.batting, BattingFormat, players);
      UpsertOwned(bowling, nextBowling, pid, d.bowling, BowlingFormat, players);
      batting, nextBatting := bat, nextBat;
      bowling, nextBowling := bowl, nextBowl;
      return Some(pid);
    }

    /**
     * `save_player_to_db`: the tables are saved; only then is the player's
     * dictionary cached under `player:{id}` and added to the vector store
     * under the database id. Neither of those two can make the save fail.
     */
    method SavePlayer(d: PlayerDetails, cache: RedisCache.Cache, store: VectorStore.Collection)
      returns (saved: Option<int>)
      requires Valid() && store.Valid()
      modifies this, cache, store
      ensures Valid() && store.Valid() && up == old(up)
      ensures saved.Some? <==> old(up)
      ensures saved.Some? ==> (saved.value >= 1 && saved.value in players
        && players[saved.value].cricbuzzId == d.cricbuzzId && d.cricbuzzId in byCricbuzz)
      ensures Grows(old(players), players) && old(byCricbuzz).Keys <= byCricbuzz.Keys
      ensures saved.None? ==> cache.store == old(cache.store) && store.points == old(store.points)
      ensures cache.now == old(cache.now) && cache.up == old(cache.up)
      ensures saved.Some? ==> RedisCache.SameExcept(old(cache.store), cache.store, {RedisCache.PlayerKey(saved.value)})
      ensures saved.Some? && old(cache.up) ==> cache.GetPlayer(saved.value) == Some(DetailsJson(d))
      ensures saved.Some? ==> (store.points ==
        var (id, point) := (JInt(saved.value), VectorStore.PointFor(store.fmt, JInt(saved.value), DetailsJson(d)));
        if store.accepts(id, point) then old(store.points)[id := point] else old(store.points))
    {
      saved := SaveTables(d);
      if saved.None? {
        return;
      }
      var data := DetailsJson(d);
      var _ := cache.CachePlayer(saved.value, data, RedisCache.PlayerTtl);
      var _ := store.AddPlayer(JInt(saved.value), data);
    }

    /**
     * One turn of the `scrape_and_ingest` loop: the entry's page is scraped
     * and the player saved; it succeeds when both do.
     */
    method IngestOne(entry: Entry, fetch: Fetcher, read: RealReader,
                     cache: RedisCache.Cache, store: VectorStore.Collection)
      returns (ok: bool)
      requires Valid() && store.Valid()
      modifies this, cache, store
      ensures ok == (old(up) && Scrapes(fetch, read, entry))
      ensures ok ==> entry.id in byCricbuzz
      ensures Valid() && store.Valid() && up == old(up)
      ensures Grows(old(players), players) && old(byCricbuzz).Keys <= byCricbuzz.Keys
      ensures cache.now == old(cache.now) && cache.up == old(cache.up)
      ensures RedisCache.SameOutsidePlayers(old(cache.store), cache.store)
    {
      var id := entry.id;
      var slug := if entry.Pair? then entry.slug else None;
      var details := ExtractPlayerDetails(fetch, id, slug, read);
      if details.None? {
        return false;
      }
      var saved := SavePlayer(details.value, cache, store);
      ok := saved.Some? && saved.value != 0;
      if saved.Some? {
        RedisCache.OnePlayerChanged(old(cache.store), cache.store, saved.value);
      }
    }

    /**
     * `scrape_and_ingest`: each entry is scraped and saved; a player counts as
     * successful when both steps succeed and as failed otherwise. The final
     * summary divides by the number of players, so the list must not be
     * empty.
     */
    method ScrapeAndIngest(entries: seq<Entry>, fetch: Fetcher, read: RealReader,
                           cache: RedisCache.Cache, store: VectorStore.Collection)
      returns (successful: nat, failed: nat, rate: real)
      requires |entries| > 0
      requires Valid() && store.Valid()
      modifies this, cache, store
      ensures successful + failed == |entries|
      ensures successful == if old(up) then ScrapedCount(fetch, read, entries) else 0
      ensures rate == SuccessRate(successful, failed)
      ensures Valid() && store.Valid() && up == old(up)
      ensures Grows(old(players), players) && old(byCricbuzz).Keys <= byCricbuzz.Keys
      ensures old(up) ==> ScrapedIds(fetch, read, entries) <= byCricbuzz.Keys
      ensures cache.now == old(cache.now) && cache.up == old(cache.up)
      ensures RedisCache.SameOutsidePlayers(old(cache.store), cache.store)
    {
      successful, failed := 0, 0;
      for i := 0 to |entries|
        invariant successful + failed == i
        invariant successful == if old(up) then ScrapedCount(fetch, read, entries[..i]) else 0
        invariant Valid() && store.Valid() && up == old(up)
        invariant Grows(old(players), players) && old(byCricbuzz).Keys <= byCricbuzz.Keys
        invariant old(up) ==> ScrapedIds(fetch, read, entries[..i]) <= byCricbuzz.Keys
        invariant cache.now == old(cache.now) && cache.up == old(cache.up)
        invariant RedisCache.SameOutsidePlayers(old(cache.store), cache.store)
      {
        ScrapedStep(fetch, read, entries, i);
        var ok := IngestOne(entries[i], fetch, read, cache, store);
        if ok {
          successful := successful + 1;
        } else {
          failed := failed + 1;
        }
      }
      assert entries[..|entries|] == entries;
      rate := SuccessRate(successful, failed);
    }
  }

  /** No two players share a Cricbuzz id. */
  lemma NoDuplicatePlayers(db: Database)
    requires db.Valid()
    ensures forall p, q | p in db.players && q in db.players && db.players[p].cricbuzzId == db.players[q].cricbuzzId :: p == q
  {
  }

  // ---------------------------------------------------------------------
  // The scraping loop

  /** A list entry: an `(id, slug)` tuple, or a bare id. */
  datatype Entry = Pair(id: int, slug: Option<string>) | Bare(id: int)

  /** The slug an entry gives the scraper. */
  function SlugOf(e: Entry): Option<string> {
    if e.Pair? then e.slug else None
  }

  /** Whether the entry's profile page is fetched, which is when its details are scraped. */
  predicate Scrapes(fetch: Fetcher, read: RealReader, e: Entry) {
    fetch(ProfileUrl(e.id, SlugOf(e))).Some?
  }

  /** The number of entries whose page is fetched. */
  function ScrapedCount(fetch: Fetcher, read: RealReader, entries: seq<Entry>): nat
    decreases |entries|
  {
    if |entries| == 0 then 0
    else ScrapedCount(fetch, read, entries[..|entries| - 1]) + (if Scrapes(fetch, read, entries[|entries| - 1]) then 1 else 0)
  }

  /** The ids of the entries `keep` holds for. */
  function IdsWhere(keep: Entry -> bool, entries: seq<Entry>): set<int>
    decreases |entries|
  {
    if |entries| == 0 then {}
    else
      var last := entries[|entries| - 1];
      IdsWhere(keep, entries[..|entries| - 1]) + (if keep(last) then {last.id} else {})
  }

  /** The Cricbuzz ids of the entries whose page is fetched. */
  function ScrapedIds(fetch: Fetcher, read: RealReader, entries: seq<Entry>): set<int> {
    IdsWhere(e => Scrapes(fetch, read, e), entries)
  }

  /** One more entry adds itself to the count and the ids when its page is fetched. */
  lemma ScrapedStep(fetch: Fetcher, read: RealReader, entries: seq<Entry>, i: nat)
    requires i < |entries|
    ensures ScrapedCount(fetch, read, entries[..i + 1])
      == ScrapedCount(fetch, read, entries[..i]) + (if Scrapes(fetch, read, entries[i]) then 1 else 0)
    ensures ScrapedIds(fetch, read, entries[..i + 1])
      == ScrapedIds(fetch, read, entries[..i]) + (if Scrapes(fetch, read, entries[i]) then {entries[i].id} else {})
  {
    assert entries[..i + 1][..i] == entries[..i];
  }

  /** The id of an entry `keep` holds for is among the ids. */
  lemma {:induction false} IdsWhereHas(keep: Entry -> bool, entries: seq<Entry>, i: nat)
    requires i < |entries| && keep(entries[i])
    ensures entries[i].id in IdsWhere(keep, entries)
    decreases |entries|
  {
    var n := |entries| - 1;
    var init := entries[..n];
    if i < n {
      assert init[i] == entries[i];
      IdsWhereHas(keep, init, i);
    }
  }

  /** Every id comes from an entry `keep` holds for. */
  lemma {:induction false} IdsWhereFrom(keep: Entry -> bool, entries: seq<Entry>, c: int) returns (i: nat)
    requires c in IdsWhere(keep, entries)
    ensures i < |entries| && keep(entries[i]) && entries[i].id == c
    decreases |entries|
  {
    var n := |entries| - 1;
    var init := entries[..n];
    if c in IdsWhere(keep, init) {
      i := IdsWhereFrom(keep, init, c);
      assert init[i] == entries[i];
    } else {
      i := n;
    }
  }

  /** The scraped ids are exactly those of entries whose page is fetched. */
  lemma ScrapedIdsExact(fetch: Fetcher, read: RealReader, entries: seq<Entry>)
    ensures forall c :: (c in ScrapedIds(fetch, read, entries)
      <==> exists i | 0 <= i < |entries| :: Scrapes(fetch, read, entries[i]) && entries[i].id == c)
  {
    var keep := e => Scrapes(fetch, read, e);
    assert ScrapedIds(fetch, read, entries) == IdsWhere(keep, entries);
    forall c
      ensures c in IdsWhere(keep, entries)
        <==> exists i | 0 <= i < |entries| :: Scrapes(fetch, read, entries[i]) && entries[i].id == c
    {
      if c in IdsWhere(keep, entries) {
        var i := IdsWhereFrom(keep, entries, c);
      }
      if exists i | 0 <= i < |entries| :: Scrapes(fetch, read, entries[i]) && entries[i].id == c {
        var i :| 0 <= i < |entries| && Scrapes(fetch, read, entries[i]) && entries[i].id == c;
        IdsWhereHas(keep, entries, i);
      }
    }
  }

  /** The scraped count never exceeds the number of entries. */
  lemma {:induction false} ScrapedAtMost(fetch: Fetcher, read: RealReader, entries: seq<Entry>)
    ensures ScrapedCount(fetch, read, entries) <= |entries|
    decreases |entries|
  {
    if |entries| > 0 {
      ScrapedAtMost(fetch, read, entries[..|entries| - 1]);
    }
  }

  /** The success rate the summary prints, in percent. */
  function SuccessRate(successful: nat, failed: nat): (r: real)
    requires successful + failed > 0
    ensures 0.0 <= r <= 100.0
    ensures r == 100.0 <==> failed == 0
    ensures r == 0.0 <==> successful == 0
  {
    var total := (successful + failed) as real;
    assert successful as real <= total;
    SuccessRateBound(successful as real, total);
    successful as real / total * 100.0
  }

  lemma SuccessRateBound(s: real, t: real)
    requires 0.0 <= s <= t && t > 0.0
    ensures 0.0 <= s / t <= 1.0
    ensures s / t == 1.0 <==> s == t
    ensures s / t == 0.0 <==> s == 0.0
  {
    assert s / t * t == s;
  }

  // ---------------------------------------------------------------------
  // Reading a custom player list

  /** `any(c.isalpha() for c in line)`, over ASCII letters. */
  predicate HasLetter(s: string) {
    exists i | 0 <= i < |s| :: IsLetter(s[i])
  }

  /** `[int(x.strip()) for x in parts if x.strip()]`; None for the `ValueError` of a piece that is not an integer. */
  function IdsOf(parts: seq<string>): Option<seq<int>>
    decreases |parts|
  {
    if |parts| == 0 then Some([])
    else
      match IdsOf(parts[..|parts| - 1])
      case None => None
      case Some(ids) =>
        var x := Strip(parts[|parts| - 1]);
        if x == "" then Some(ids)
        else
          match PyInt(x)
          case None => None
          case Some(n) => Some(ids + [n])
  }

  /** What one stripped input line means. */
  datatype Line =
    | Blank                          // ends the input
    | IdList(ids: seq<int>)          // comma-separated ids: taken, and the input ends
    | IdSlug(id: int, slug: string)  // one `ID,slug` entry
    | Rejected                       // an error message, and reading goes on

  /**
   * A line with a comma and no letter is a list of ids; another line with a
   * comma is split at its first comma into an id and a slug; a line without
   * a comma is rejected, as is an id that is not an integer.
   */
  function Classify(line: string): Line {
    if line == "" then Blank
    else if ',' in line && !HasLetter(line) then
      match IdsOf(SplitOn(line, ','))
      case Some(ids) => IdList(ids)
      case None => Rejected
    else if ',' in line then
      var n := FieldLen(line, ',');
      match PyInt(line[..n])
      case Some(id) => IdSlug(id, Strip(line[n + 1..]))
      case None => Rejected
    else Rejected
  }

  /** The ids of an id list, each as an entry without a slug. */
  function Unslugged(ids: seq<int>): (es: seq<Entry>)
    ensures |es| == |ids|
    ensures forall i | 0 <= i < |ids| :: es[i] == Pair(ids[i], None)
    decreases |ids|
  {
    if |ids| == 0 then [] else Unslugged(ids[..|ids| - 1]) + [Pair(ids[|ids| - 1], None)]
  }

  /** What an input line means: `line = input().strip()`, then the tests on it. */
  function LineKind(line: string): Line {
    Classify(Strip(line))
  }

  /** The entries read from `lines` when `kind` says what each line means. */
  function Parse(lines: seq<string>, kind: string -> Line): seq<Entry>
    decreases |lines|
  {
    if |lines| == 0 then []
    else
      match kind(lines[0])
      case Blank => []
      case IdList(ids) => Unslugged(ids)
      case IdSlug(id, slug) => [Pair(id, Some(slug))] + Parse(lines[1..], kind)
      case Rejected => Parse(lines[1..], kind)
  }

  /** The list `scrape_custom_players` builds from the lines typed, in order. */
  function ParseLines(lines: seq<string>): seq<Entry> {
    Parse(lines, LineKind)
  }

  /** A line after which nothing more is read. */
  predicate Stops(k: Line) {
    k.Blank? || k.IdList?
  }

  /**
   * The input loop of `scrape_custom_players`; `kind` is what the loop
   * makes of each line, `LineKind` in the script.
   */
  method ReadPlayerList(lines: seq<string>, kind: string -> Line) returns (list: seq<Entry>)
    ensures list == Parse(lines, kind)
  {
    list := [];
    var i := 0;
    while i < |lines|
      invariant 0 <= i <= |lines|
      invariant list + Parse(lines[i..], kind) == Parse(lines, kind)
    {
      ParseAt(lines, i, kind);
      match kind(lines[i]) {
        case Blank =>
          assert list + [] == list;
          return;
        case IdList(ids) =>
          list := list + Unslugged(ids);
          return;
        case IdSlug(id, slug) =>
          ghost var rest := Parse(lines[i + 1..], kind);
          assert list + ([Pair(id, Some(slug))] + rest) == (list + [Pair(id, Some(slug))]) + rest;
          list := list + [Pair(id, Some(slug))];
        case Rejected =>
      }
      i := i + 1;
    }
    assert list + [] == list;
  }

  /** Reading from line `i` on: what that line gives, then the rest when it does not stop. */
  lemma ParseAt(lines: seq<string>, i: nat, kind: string -> Line)
    requires i < |lines|
    ensures kind(lines[i]).Blank? ==> Parse(lines[i..], kind) == []
    ensures kind(lines[i]).IdList? ==> Parse(lines[i..], kind) == Unslugged(kind(lines[i]).ids)
    ensures kind(lines[i]).IdSlug? ==>
      Parse(lines[i..], kind) == [Pair(kind(lines[i]).id, Some(kind(lines[i]).slug))] + Parse(lines[i + 1..], kind)
    ensures kind(lines[i]).Rejected? ==> Parse(lines[i..], kind) == Parse(lines[i + 1..], kind)
  {
    assert lines[i..][0] == lines[i] && lines[i..][1..] == lines[i + 1..];
  }

  /** Nothing typed after a blank line or an id list is read. */
  lemma {:induction false} NothingAfterStop(a: seq<string>, line: string, b: seq<string>, kind: string -> Line)
    requires Stops(kind(line))
    ensures Parse(a + [line] + b, kind) == Parse(a + [line], kind)
    decreases |a|
  {
    if |a| == 0 {
      assert (a + [line] + b)[0] == line && (a + [line])[0] == line;
    } else {
      assert (a + [line] + b)[0] == a[0] && (a + [line])[0] == a[0];
      assert (a + [line] + b)[1..] == a[1..] + [line] + b;
      assert (a + [line])[1..] == a[1..] + [line];
      NothingAfterStop(a[1..], line, b, kind);
    }
  }

  /** Lines before any stop contribute their entries in order, ahead of what follows. */
  lemma {:induction false} ParseAppend(a: seq<string>, b: seq<string>, kind: string -> Line)
    requires forall i | 0 <= i < |a| :: !Stops(kind(a[i]))
    ensures Parse(a + b, kind) == Parse(a, kind) + Parse(b, kind)
    decreases |a|
  {
    if |a| == 0 {
      assert a + b == b;
    } else {
      assert (a + b)[0] == a[0];
      assert (a + b)[1..] == a[1..] + b;
      assert forall i | 0 <= i < |a[1..]| :: a[1..][i] == a[i + 1];
      ParseAppend(a[1..], b, kind);
    }
  }

  /**
   * Lines before any stop give their entries in order; an id list line then
   * adds its ids, each without a slug, and ends the list.
   */
  lemma IdListLine(a: seq<string>, line: string, b: seq<string>, ids: seq<int>)
    requires forall i | 0 <= i < |a| :: !Stops(LineKind(a[i]))
    requires LineKind(line) == IdList(ids)
    ensures ParseLines(a + [line] + b) == ParseLines(a) + Unslugged(ids)
  {
    NothingAfterStop(a, line, b, LineKind);
    ParseAppend(a, [line], LineKind);
    assert [line][0] == line;
  }

  /** A blank line ends the list: the lines before it give their entries, the lines after it none. */
  lemma BlankLine(a: seq<string>, line: string, b: seq<string>)
    requires forall i | 0 <= i < |a| :: !Stops(LineKind(a[i]))
    requires LineKind(line) == Blank
    ensures ParseLines(a + [line] + b) == ParseLines(a)
  {
    NothingAfterStop(a, line, b, LineKind);
    ParseAppend(a, [line], LineKind);
    assert [line][0] == line;
  }

  /** The ids as printed, one piece each. */
  function Printed(ids: seq<int>): (ps: seq<string>)
    ensures |ps| == |ids|
    ensures forall k | 0 <= k < |ids| :: ps[k] == IntToString(ids[k])
    decreases |ids|
  {
    if |ids| == 0 then [] else Printed(ids[..|ids| - 1]) + [IntToString(ids[|ids| - 1])]
  }

  /** A printed integer holds no comma, no letter and no whitespace. */
  lemma PrintedChars(n: int)
    ensures forall i | 0 <= i < |IntToString(n)| ::
      IntToString(n)[i] != ',' && !IsLetter(IntToString(n)[i]) && !IsSpace(IntToString(n)[i])
  {
    var s := IntToString(n);
    forall i | 0 <= i < |s| ensures s[i] != ',' && !IsLetter(s[i]) && !IsSpace(s[i]) {
      assert s[i] in s;
    }
  }

  /** Printed ids are read back as those ids. */
  lemma {:induction false} IdsOfPrinted(ids: seq<int>)
    ensures IdsOf(Printed(ids)) == Some(ids)
    decreases |ids|
  {
    if |ids| > 0 {
      var init := ids[..|ids| - 1];
      var n := ids[|ids| - 1];
      LastSplit(ids);
      var before := Printed(init);
      IdsOfPrinted(init);
      assert Printed(ids) == before + [IntToString(n)];
      IdsOfSnoc(before, init, n);
    } else {
      assert Printed(ids) == [];
    }
  }

  lemma LastSplit<T>(s: seq<T>)
    requires |s| > 0
    ensures s == s[..|s| - 1] + [s[|s| - 1]]
  { }

  /** One more printed number adds it. */
  lemma IdsOfSnoc(parts: seq<string>, ids: seq<int>, n: int)
    requires IdsOf(parts) == Some(ids)
    ensures IdsOf(parts + [IntToString(n)]) == Some(ids + [n])
  {
    var x := IntToString(n);
    PrintedIsStripped(n);
    ParsePrinted(n);
    assert (parts + [x])[..|parts|] == parts;
  }

  /** The character test a line of ids passes. */
  predicate IdChar(c: char) {
    !IsSpace(c) && !IsLetter(c)
  }

  /** Pieces of id characters joined by commas hold only id characters. */
  lemma {:induction false} JoinIdChars(parts: seq<string>)
    requires forall k, i | 0 <= k < |parts| && 0 <= i < |parts[k]| :: IdChar(parts[k][i])
    ensures forall i | 0 <= i < |Join(",", parts)| :: IdChar(Join(",", parts)[i])
    decreases |parts|
  {
    if |parts| > 1 {
      var rest := parts[1..];
      assert forall k | 0 <= k < |rest| :: rest[k] == parts[k + 1];
      JoinIdChars(rest);
      var j := Join(",", rest);
      var t := parts[0] + "," + j;
      forall i | 0 <= i < |t| ensures IdChar(t[i]) {
        if i < |parts[0]| {
          assert t[i] == parts[0][i];
        } else if i > |parts[0]| {
          assert t[i] == j[i - |parts[0]| - 1];
        }
      }
    }
  }

  /** The branch of `Classify` that reads an id list. */
  lemma ClassifyIds(line: string, ids: seq<int>)
    requires line != "" && ',' in line && !HasLetter(line) && IdsOf(SplitOn(line, ',')) == Some(ids)
    ensures Classify(line) == IdList(ids)
  {
  }

  /** The branch of `Classify` that reads an `ID,slug` entry. */
  lemma ClassifySlug(line: string, n: nat, id: int, slug: string)
    requires line != "" && ',' in line && HasLetter(line) && n == FieldLen(line, ',')
    requires PyInt(line[..n]) == Some(id) && Strip(line[n + 1..]) == slug
    ensures Classify(line) == IdSlug(id, slug)
  {
  }

  /** A join of two or more pieces of id characters is its own strip, holds a comma and no letter. */
  lemma IdLine(ps: seq<string>, line: string)
    requires |ps| >= 2 && line == Join(",", ps)
    requires forall k, i | 0 <= k < |ps| && 0 <= i < |ps[k]| :: IdChar(ps[k][i])
    ensures Strip(line) == line && line != "" && ',' in line && !HasLetter(line)
  {
    JoinIdChars(ps);
    assert line == ps[0] + "," + Join(",", ps[1..]);
    assert line[|ps[0]|] == ',';
    assert !IsSpace(line[0]) && !IsSpace(line[|line| - 1]);
    StripNoSpace(line);
  }

  /** Printed ids hold no comma, no letter and no whitespace. */
  lemma PrintedPieces(ids: seq<int>)
    ensures forall k | 0 <= k < |ids| :: ',' !in Printed(ids)[k]
    ensures forall k, i | 0 <= k < |ids| && 0 <= i < |Printed(ids)[k]| :: IdChar(Printed(ids)[k][i])
  {
    forall k | 0 <= k < |ids|
      ensures ',' !in Printed(ids)[k] && forall i | 0 <= i < |Printed(ids)[k]| :: IdChar(Printed(ids)[k][i])
    {
      PrintedChars(ids[k]);
    }
  }

  /** Two or more printed ids joined by commas are read as an id list of those ids. */
  lemma IdListRoundTrip(ids: seq<int>)
    requires |ids| >= 2
    ensures LineKind(Join(",", Printed(ids))) == IdList(ids)
  {
    var ps := Printed(ids);
    var line := Join(",", ps);
    PrintedPieces(ids);
    IdLine(ps, line);
    SplitOnJoin(ps, ',');
    IdsOfPrinted(ids);
    ClassifyIds(line, ids);
  }

  /** A lone id, typed without a comma, is rejected. */
  lemma LoneIdRejected(id: int)
    ensures LineKind(IntToString(id)) == Rejected
  {
    PrintedChars(id);
    PrintedIsStripped(id);
  }

  /** The pieces of an `ID,slug` line. */
  lemma SlugLine(d: string, slug: string, line: string)
    requires line == d + "," + slug && |d| > 0 && ',' !in d
    requires HasLetter(slug) && !IsSpace(d[0]) && !IsSpace(slug[|slug| - 1])
    ensures Strip(line) == line && line != "" && ',' in line && HasLetter(line)
    ensures FieldLen(line, ',') == |d| && line[..|d|] == d && line[|d| + 1..] == slug
  {
    assert line[0] == d[0] && line[|line| - 1] == slug[|slug| - 1];
    StripNoSpace(line);
    var k :| 0 <= k < |slug| && IsLetter(slug[k]);
    assert line[|d| + 1 + k] == slug[k];
    assert line[|d|] == ',';
    assert forall i | 0 <= i < |d| :: line[i] == d[i] && d[i] != ',';
  }

  /** The `ID,slug` form: a printed id, a comma and a slug with a letter and no surrounding whitespace. */
  lemma IdSlugRoundTrip(id: int, slug: string)
    requires HasLetter(slug) && !IsSpace(slug[0]) && !IsSpace(slug[|slug| - 1])
    ensures LineKind(IntToString(id) + "," + slug) == IdSlug(id, slug)
  {
    var d := IntToString(id);
    var line := d + "," + slug;
    PrintedChars(id);
    assert ',' !in d && !IsSpace(d[0]);
    SlugLine(d, slug, line);
    ParsePrinted(id);
    StripNoSpace(slug);
    ClassifySlug(line, |d|, id, slug);
  }

  /**
   * `scrape_custom_players`: the list is read; an empty list scrapes
   * nothing; otherwise the list is scraped and ingested.
   */
  method ScrapeCustomPlayers(db: Database, lines: seq<string>, fetch: Fetcher, read: RealReader,
                             cache: RedisCache.Cache, store: VectorStore.Collection)
    returns (ran: bool, successful: nat, failed: nat)
    requires db.Valid() && store.Valid()
    modifies db, cache, store
    ensures ran <==> ParseLines(lines) != []
    ensures ran ==> successful + failed == |ParseLines(lines)| > 0
    ensures !ran ==> successful == 0 && failed == 0 && unchanged(db, cache, store)
    ensures db.Valid() && store.Valid()
  {
    var list := ReadPlayerList(lines, LineKind);
    if |list| == 0 {
      return false, 0, 0;
    }
    var rate;
    successful, failed, rate := db.ScrapeAndIngest(list, fetch, read, cache, store);
    ran := true;
  }

  // ---------------------------------------------------------------------
  // The menu

  /** The fifteen players of `POPULAR_PLAYERS`, as `(id, slug)` pairs. */
  const PopularPlayers: seq<Entry> := [
    Pair(1413, Some("virat-kohli")), Pair(253802, Some("rohit-sharma")), Pair(4608, Some("ms-dhoni")),
    Pair(4898, Some("jasprit-bumrah")), Pair(6900, Some("kl-rahul")), Pair(4972, Some("hardik-pandya")),
    Pair(8733, Some("rishabh-pant")), Pair(5792, Some("ravindra-jadeja")), Pair(253977, Some("shubman-gill")),
    Pair(5971, Some("mohammed-shami")), Pair(8272, Some("suryakumar-yadav")), Pair(9062, Some("yuzvendra-chahal")),
    Pair(6525, Some("shreyas-iyer")), Pair(30045, Some("ishan-kishan")), Pair(9441, Some("washington-sundar"))]

  /** What the menu does: ingest a list with a rate limit, read a custom list, or nothing. */
  datatype Action = Ingest(entries: seq<Entry>, rateLimit: real) | ReadCustom | Nothing

  /**
   * `main`: the stripped choice picks the option; option 1 runs only after
   * a confirmation that is `y` in any case, option 3 takes the first three
   * popular players with a shorter rate limit.
   */
  function MenuAction(choice: string, confirm: string): Action {
    var c := Strip(choice);
    if c == "1" then (if ToLower(confirm) == "y" then Ingest(PopularPlayers, 3.0) else Nothing)
    else if c == "2" then ReadCustom
    else if c == "3" then Ingest(PopularPlayers[..3], 2.0)
    else Nothing
  }

  /** The menu never ingests an empty list, so the success rate is always defined. */
  lemma MenuIngestsSome(choice: string, confirm: string)
    ensures MenuAction(choice, confirm).Ingest? ==> |MenuAction(choice, confirm).entries| > 0
  {
  }
}
