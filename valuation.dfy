/**
 * The player valuation model: a weighted score from the first IPL batting
 * and bowling rows of a player, the role's scarcity and the player's
 * country, turned into a price from the role's base price and capped at
 * 20 crores. Python floats are modelled as exact reals.
 */
module Valuation {
  import opened Values

  /** One `BattingStats` row. */
  datatype BattingRow = BattingRow(
    format: string, matches: int, runs: int, average: real, strikeRate: real,
    fifties: int, hundreds: int, fours: int, sixes: int)

  /** One `BowlingStats` row. */
  datatype BowlingRow = BowlingRow(
    format: string, matches: int, wickets: int, average: real, economy: real, fiveWicketHaul: int)

  /** A `Player` with its stats rows, as the valuation reads it. */
  datatype PlayerRecord = PlayerRecord(
    id: int, name: string, country: string, role: string,
    batting: seq<BattingRow>, bowling: seq<BowlingRow>)

  /** The component scores and their weighted total. */
  datatype Breakdown = Breakdown(
    batting: real, bowling: real, form: real, scarcity: real, international: real, total: real)

  /** The dict `calculate_valuation` returns (before rounding). */
  datatype Estimate = Estimate(
    playerId: int, playerName: string, role: string, price: real, breakdown: Breakdown, keyStats: Json)

  const MaxPrice: real := 20.0
  const BattingWeight: real := 0.35
  const BowlingWeight: real := 0.35
  const FormWeight: real := 0.15
  const ScarcityWeight: real := 0.10
  const InternationalWeight: real := 0.05

  function Min(a: real, b: real): real {
    if a <= b then a else b
  }

  function Max(a: real, b: real): real {
    if a >= b then a else b
  }

  // ---------------------------------------------------------------------
  // Role tables

  /** `BASE_PRICES.get(role, 2.0)` */
  function BasePrice(role: string): real {
    if role == "Batsman" then 2.0
    else if role == "Bowler" then 2.0
    else if role == "All-Rounder" then 3.0
    else if role == "Wicket-Keeper" then 2.5
    else 2.0
  }

  /** `_calculate_role_scarcity`: the scarcity map, 0.5 for any other role. */
  function RoleScarcity(role: string): real {
    if role == "All-Rounder" then 1.0
    else if role == "Wicket-Keeper" then 0.8
    else if role == "Bowler" then 0.5
    else if role == "Batsman" then 0.3
    else 0.5
  }

  /** Base prices lie between 2 and 3 crores; a role outside the table costs 2. */
  lemma BasePriceRange(role: string)
    ensures 2.0 <= BasePrice(role) <= 3.0
    ensures role !in {"Batsman", "Bowler", "All-Rounder", "Wicket-Keeper"} ==> BasePrice(role) == 2.0
  {
  }

  /** Scarcity lies between 0.3 and 1; a role outside the map scores 0.5. */
  lemma ScarcityRange(role: string)
    ensures 0.3 <= RoleScarcity(role) <= 1.0
    ensures role !in {"Batsman", "Bowler", "All-Rounder", "Wicket-Keeper"} ==> RoleScarcity(role) == 0.5
  {
  }

  /** `_calculate_international_status_dict`: 0.8 for India, else 0. */
  function InternationalStatus(country: string): real {
    if country == "India" then 0.8 else 0.0
  }

  /** `_calculate_recent_form`: a constant placeholder. */
  function RecentForm(p: PlayerRecord): real {
    0.5
  }

  // ---------------------------------------------------------------------
  // Impact scores

  /** `_calculate_batting_impact_dict` */
  function BattingImpact(stats: Option<BattingRow>): real {
    if stats.None? || stats.value.matches < 5 then 0.0
    else
      var s := stats.value;
      var runsScore := Min(s.runs as real / 5000.0, 1.0);
      var avgScore := Min(s.average / 50.0, 1.0);
      var srScore := if s.strikeRate > 100.0 then Min((s.strikeRate - 100.0) / 100.0, 1.0) else 0.0;
      var boundaryScore := Min((s.fours + s.sixes * 2) as real / 1000.0, 1.0);
      runsScore * 0.4 + avgScore * 0.25 + srScore * 0.25 + boundaryScore * 0.10
  }

  /** `_calculate_bowling_impact_dict` */
  function BowlingImpact(stats: Option<BowlingRow>): real {
    if stats.None? || stats.value.matches < 5 then 0.0
    else
      var s := stats.value;
      var wicketsScore := Min(s.wickets as real / 200.0, 1.0);
      var economyScore := if s.economy > 0.0 then Max(1.0 - (s.economy - 6.0) / 4.0, 0.0) else 0.0;
      var fifersScore := Min(s.fiveWicketHaul as real / 5.0, 1.0);
      wicketsScore * 0.5 + economyScore * 0.4 + fifersScore * 0.1
  }

  predicate BattingNonNegative(s: BattingRow) {
    s.runs >= 0 && s.average >= 0.0 && s.fours >= 0 && s.sixes >= 0
  }

  predicate BowlingNonNegative(s: BowlingRow) {
    s.wickets >= 0 && s.economy >= 0.0 && s.fiveWicketHaul >= 0
  }

  /** Missing stats and fewer than five matches score nothing. */
  lemma ImpactsNeedFiveMatches(bat: Option<BattingRow>, bowl: Option<BowlingRow>)
    ensures bat.None? || bat.value.matches < 5 ==> BattingImpact(bat) == 0.0
    ensures bowl.None? || bowl.value.matches < 5 ==> BowlingImpact(bowl) == 0.0
  {
  }

  /**
   * With non-negative stats the batting impact lies in [0, 1]: each
   * component is capped at 1 and the weights sum to 1.
   */
  lemma BattingImpactBounds(stats: Option<BattingRow>)
    requires stats.Some? ==> BattingNonNegative(stats.value)
    ensures 0.0 <= BattingImpact(stats) <= 1.0
  {
    if stats.Some? && stats.value.matches >= 5 {
      var s := stats.value;
      assert 0.0 <= s.runs as real / 5000.0;
      assert 0.0 <= s.average / 50.0;
      assert 0.0 <= (s.fours + s.sixes * 2) as real / 1000.0;
    }
  }

  /**
   * The bowling impact is non-negative for non-negative stats but not
   * bounded by 1: an economy below 6 scores above 1, up to 2.5.
   */
  lemma BowlingImpactBounds(stats: Option<BowlingRow>)
    requires stats.Some? ==> BowlingNonNegative(stats.value)
    ensures 0.0 <= BowlingImpact(stats) < 1.6
  {
    if stats.Some? && stats.value.matches >= 5 {
      var s := stats.value;
      assert 0.0 <= s.wickets as real / 200.0;
      assert 0.0 <= s.fiveWicketHaul as real / 5.0;
      if s.economy > 0.0 {
        assert (s.economy - 6.0) / 4.0 > -1.5;
      }
    }
  }

  /** A bowler with economy 2 goes past 1. */
  lemma BowlingImpactCanExceedOne()
    ensures BowlingImpact(Some(BowlingRow("IPL", 10, 200, 15.0, 2.0, 5))) == 1.4
  {
    var e := Max(1.0 - (2.0 - 6.0) / 4.0, 0.0);
    assert e == 2.0;
  }

  // ---------------------------------------------------------------------
  // The first IPL rows

  /** The first batting row whose format is IPL. */
  function FirstIplBatting(rows: seq<BattingRow>): Option<BattingRow>
    decreases |rows|
  {
    if |rows| == 0 then None
    else if rows[0].format == "IPL" then Some(rows[0])
    else FirstIplBatting(rows[1..])
  }

  /** The first bowling row whose format is IPL. */
  function FirstIplBowling(rows: seq<BowlingRow>): Option<BowlingRow>
    decreases |rows|
  {
    if |rows| == 0 then None
    else if rows[0].format == "IPL" then Some(rows[0])
    else FirstIplBowling(rows[1..])
  }

  /** Only the first IPL batting row counts: it is an IPL row and no earlier row is. */
  lemma {:induction false} FirstIplBattingSpec(rows: seq<BattingRow>)
    ensures FirstIplBatting(rows).None? <==> forall i | 0 <= i < |rows| :: rows[i].format != "IPL"
    ensures FirstIplBatting(rows).Some? ==> exists i | 0 <= i < |rows| ::
      rows[i] == FirstIplBatting(rows).value && rows[i].format == "IPL"
      && forall j | 0 <= j < i :: rows[j].format != "IPL"
    decreases |rows|
  {
    if |rows| > 0 && rows[0].format != "IPL" {
      FirstIplBattingSpec(rows[1..]);
      if FirstIplBatting(rows).Some? {
        var i :| 0 <= i < |rows[1..]| && rows[1..][i] == FirstIplBatting(rows).value
          && rows[1..][i].format == "IPL" && forall j | 0 <= j < i :: rows[1..][j].format != "IPL";
        assert rows[i + 1] == rows[1..][i];
        assert forall j | 1 <= j < i + 1 :: rows[j] == rows[1..][j - 1];
      }
    }
  }

  /** Only the first IPL bowling row counts: it is an IPL row and no earlier row is. */
  lemma {:induction false} FirstIplBowlingSpec(rows: seq<BowlingRow>)
    ensures FirstIplBowling(rows).None? <==> forall i | 0 <= i < |rows| :: rows[i].format != "IPL"
    ensures FirstIplBowling(rows).Some? ==> exists i | 0 <= i < |rows| ::
      rows[i] == FirstIplBowling(rows).value && rows[i].format == "IPL"
      && forall j | 0 <= j < i :: rows[j].format != "IPL"
    decreases |rows|
  {
    if |rows| > 0 && rows[0].format != "IPL" {
      FirstIplBowlingSpec(rows[1..]);
      if FirstIplBowling(rows).Some? {
        var i :| 0 <= i < |rows[1..]| && rows[1..][i] == FirstIplBowling(rows).value
          && rows[1..][i].format == "IPL" && forall j | 0 <= j < i :: rows[1..][j].format != "IPL";
        assert rows[i + 1] == rows[1..][i];
        assert forall j | 1 <= j < i + 1 :: rows[j] == rows[1..][j - 1];
      }
    }
  }

  /** The loop over `player.batting_stats` that stops at the first IPL row. */
  method FindIplBatting(rows: seq<BattingRow>) returns (r: Option<BattingRow>)
    ensures r == FirstIplBatting(rows)
  {
    r := None;
    for i := 0 to |rows|
      invariant FirstIplBatting(rows[i..]) == FirstIplBatting(rows)
    {
      assert rows[i..][1..] == rows[i + 1..];
      if rows[i].format == "IPL" {
        r := Some(rows[i]);
        break;
      }
    }
  }

  /** The loop over `player.bowling_stats` that stops at the first IPL row. */
  method FindIplBowling(rows: seq<BowlingRow>) returns (r: Option<BowlingRow>)
    ensures r == FirstIplBowling(rows)
  {
    r := None;
    for i := 0 to |rows|
      invariant FirstIplBowling(rows[i..]) == FirstIplBowling(rows)
    {
      assert rows[i..][1..] == rows[i + 1..];
      if rows[i].format == "IPL" {
        r := Some(rows[i]);
        break;
      }
    }
  }

  // ---------------------------------------------------------------------
  // Key stats

  /** The batting entries of `_get_key_stats_dict`, in insertion order. */
  function BattingKeys(b: BattingRow): seq<(string, Json)> {
    [("ipl_matches", JInt(b.matches)), ("ipl_runs", JInt(b.runs)), ("batting_avg", JReal(b.average)),
     ("strike_rate", JReal(b.strikeRate)), ("fifties", JInt(b.fifties)), ("hundreds", JInt(b.hundreds))]
  }

  /** The bowling entries of `_get_key_stats_dict`, in insertion order. */
  function BowlingKeys(b: BowlingRow): seq<(string, Json)> {
    [("ipl_wickets", JInt(b.wickets)), ("bowling_avg", JReal(b.average)), ("economy", JReal(b.economy)),
     ("five_wickets", JInt(b.fiveWicketHaul))]
  }

  /** `_get_key_stats_dict`: each block only when its row has played a match. */
  function KeyStats(bat: Option<BattingRow>, bowl: Option<BowlingRow>): Json {
    JObj((if bat.Some? && bat.value.matches > 0 then BattingKeys(bat.value) else [])
      + (if bowl.Some? && bowl.value.matches > 0 then BowlingKeys(bowl.value) else []))
  }

  /**
   * The batting key stats appear exactly when the batting row has a
   * match, the bowling ones exactly when the bowling row has; the dict is
   * empty exactly when neither has.
   */
  lemma KeyStatsPresence(bat: Option<BattingRow>, bowl: Option<BowlingRow>)
    ensures Has(KeyStats(bat, bowl), "ipl_runs") <==> bat.Some? && bat.value.matches > 0
    ensures Has(KeyStats(bat, bowl), "ipl_wickets") <==> bowl.Some? && bowl.value.matches > 0
    ensures Truthy(KeyStats(bat, bowl)) <==> (bat.Some? && bat.value.matches > 0) || (bowl.Some? && bowl.value.matches > 0)
  {
    var a := if bat.Some? && bat.value.matches > 0 then BattingKeys(bat.value) else [];
    var b := if bowl.Some? && bowl.value.matches > 0 then BowlingKeys(bowl.value) else [];
    var fs := a + b;
    assert forall i | 0 <= i < |b| :: b[i].0 != "ipl_runs";
    assert forall i | 0 <= i < |a| :: a[i].0 != "ipl_wickets";
    if |a| > 0 {
      assert fs[1] == ("ipl_runs", JInt(bat.value.runs));
    }
    if |b| > 0 {
      assert fs[|a|] == ("ipl_wickets", JInt(bowl.value.wickets));
    }
    assert forall i | 0 <= i < |fs| :: fs[i] == if i < |a| then a[i] else b[i - |a|];
  }

  // ---------------------------------------------------------------------
  // The price

  /** The scores of a player and their weighted total. */
  function Scores(p: PlayerRecord): Breakdown {
    var batting := BattingImpact(FirstIplBatting(p.batting));
    var bowling := BowlingImpact(FirstIplBowling(p.bowling));
    var form := RecentForm(p);
    var scarcity := RoleScarcity(p.role);
    var international := InternationalStatus(p.country);
    Breakdown(batting, bowling, form, scarcity, international,
      batting * BattingWeight + bowling * BowlingWeight + form * FormWeight
      + scarcity * ScarcityWeight + international * InternationalWeight)
  }

  /** `min(base * (1 + total), 20.0)` */
  function Price(role: string, total: real): real {
    Min(BasePrice(role) * (1.0 + total), MaxPrice)
  }

  /** The estimate `calculate_valuation` builds for a player it found. */
  function Valuate(p: PlayerRecord): Estimate {
    var scores := Scores(p);
    Estimate(p.id, p.name, p.role, Price(p.role, scores.total), scores,
      KeyStats(FirstIplBatting(p.batting), FirstIplBowling(p.bowling)))
  }

  /** The price never exceeds the cap; it is the base price grown by the total score, up to the cap. */
  lemma PriceCapped(role: string, total: real)
    ensures Price(role, total) <= MaxPrice
    ensures Price(role, total) == MaxPrice || Price(role, total) == BasePrice(role) * (1.0 + total)
    ensures total >= 0.0 ==> BasePrice(role) <= Price(role, total)
  {
    BasePriceRange(role);
    if total >= 0.0 {
      assert BasePrice(role) * (1.0 + total) >= BasePrice(role) * 1.0;
    }
  }

  /**
   * With non-negative stats every score is non-negative, so the price lies
   * between the role's base price and 20 crores.
   */
  lemma ValuatePriceBounds(p: PlayerRecord)
    requires forall r <- p.batting :: BattingNonNegative(r)
    requires forall r <- p.bowling :: BowlingNonNegative(r)
    ensures BasePrice(p.role) <= Valuate(p).price <= MaxPrice
    ensures Valuate(p).breakdown.total >= 0.0
  {
    FirstIplBattingSpec(p.batting);
    FirstIplBowlingSpec(p.bowling);
    BattingImpactBounds(FirstIplBatting(p.batting));
    BowlingImpactBounds(FirstIplBowling(p.bowling));
    ScarcityRange(p.role);
    PriceCapped(p.role, Scores(p).total);
  }

  /** `calculate_valuation`: None when no player has the id (or the lookup fails). */
  function Calculate(find: int -> Option<PlayerRecord>, id: int): Option<Estimate> {
    var p := find(id);
    if p.None? then None else Some(Valuate(p.value))
  }

  /** `calculate_valuation` */
  method CalculateValuation(find: int -> Option<PlayerRecord>, id: int) returns (r: Option<Estimate>)
    ensures r == Calculate(find, id)
    ensures r.Some? ==> r.value.price <= MaxPrice && r.value.playerId == find(id).value.id
  {
    var p := find(id);
    if p.None? {
      return None;
    }
    var bat := FindIplBatting(p.value.batting);
    var bowl := FindIplBowling(p.value.bowling);
    var batting := BattingImpact(bat);
    var bowling := BowlingImpact(bowl);
    var form := RecentForm(p.value);
    var scarcity := RoleScarcity(p.value.role);
    var international := InternationalStatus(p.value.country);
    var total := batting * BattingWeight + bowling * BowlingWeight + form * FormWeight
      + scarcity * ScarcityWeight + international * InternationalWeight;
    var price := BasePrice(p.value.role) * (1.0 + total);
    price := Min(price, MaxPrice);
    PriceCapped(p.value.role, total);
    return Some(Estimate(p.value.id, p.value.name, p.value.role, price,
      Breakdown(batting, bowling, form, scarcity, international, total), KeyStats(bat, bowl)));
  }

  /** The estimate as the dict the bot formats. */
  function EstimateJson(e: Estimate): Json {
    JObj([("player_id", JInt(e.playerId)), ("player_name", JStr(e.playerName)), ("role", JStr(e.role)),
      ("estimated_price_cr", JReal(e.price)),
      ("breakdown", JObj([("batting_impact", JReal(e.breakdown.batting)), ("bowling_impact", JReal(e.breakdown.bowling)),
        ("recent_form", JReal(e.breakdown.form)), ("role_scarcity", JReal(e.breakdown.scarcity)),
        ("international_status", JReal(e.breakdown.international)), ("total_score", JReal(e.breakdown.total))])),
      ("key_stats", e.keyStats)])
  }

  // ---------------------------------------------------------------------
  // Comparison

  /** The estimates of the ids that have one, in the order of the ids. */
  function Found(find: int -> Option<PlayerRecord>, ids: seq<int>): (es: seq<Estimate>)
    ensures |es| <= |ids|
    decreases |ids|
  {
    if |ids| == 0 then []
    else
      var v := Calculate(find, ids[|ids| - 1]);
      Found(find, ids[..|ids| - 1]) + (if v.Some? then [v.value] else [])
  }

  /** Non-increasing by price. */
  predicate ByPriceDesc(es: seq<Estimate>) {
    forall i, j | 0 <= i < j < |es| :: es[i].price >= es[j].price
  }

  /** Puts `e` before the first entry that is not dearer, keeping entries of equal price in order. */
  function Insert(e: Estimate, es: seq<Estimate>): (r: seq<Estimate>)
    ensures multiset(r) == multiset(es) + multiset{e}
    ensures |r| == |es| + 1
    decreases |es|
  {
    if |es| == 0 || es[0].price <= e.price then [e] + es
    else
      assert es == [es[0]] + es[1..];
      [es[0]] + Insert(e, es[1..])
  }

  /** `list.sort(key=price, reverse=True)`: a stable insertion sort. */
  function SortByPrice(es: seq<Estimate>): (r: seq<Estimate>)
    ensures multiset(r) == multiset(es)
    decreases |es|
  {
    if |es| == 0 then []
    else
      assert es == [es[0]] + es[1..];
      Insert(es[0], SortByPrice(es[1..]))
  }

  /** Inserting below a bound stays below it. */
  lemma {:induction false} InsertBelow(e: Estimate, es: seq<Estimate>, bound: real)
    requires e.price <= bound && forall i | 0 <= i < |es| :: es[i].price <= bound
    ensures forall i | 0 <= i < |Insert(e, es)| :: Insert(e, es)[i].price <= bound
    decreases |es|
  {
    if |es| > 0 && es[0].price > e.price {
      InsertBelow(e, es[1..], bound);
    }
  }

  lemma {:induction false} InsertSorted(e: Estimate, es: seq<Estimate>)
    requires ByPriceDesc(es)
    ensures ByPriceDesc(Insert(e, es))
    decreases |es|
  {
    if |es| > 0 && es[0].price > e.price {
      var tail := es[1..];
      InsertSorted(e, tail);
      InsertBelow(e, tail, es[0].price);
      var r := Insert(e, tail);
      assert Insert(e, es) == [es[0]] + r;
    } else {
      assert Insert(e, es) == [e] + es;
    }
  }

  /** The sorted list is non-increasing by price and holds the same estimates. */
  lemma {:induction false} SortByPriceSorted(es: seq<Estimate>)
    ensures ByPriceDesc(SortByPrice(es))
    ensures multiset(SortByPrice(es)) == multiset(es) && |SortByPrice(es)| == |es|
    decreases |es|
  {
    if |es| > 0 {
      SortByPriceSorted(es[1..]);
      InsertSorted(es[0], SortByPrice(es[1..]));
    }
  }

  /** The estimates found are those of ids with one, none invented; ids without a player are dropped. */
  lemma {:induction false} FoundSpec(find: int -> Option<PlayerRecord>, ids: seq<int>)
    ensures forall e <- Found(find, ids) :: exists id <- ids :: Calculate(find, id) == Some(e)
    ensures (forall id <- ids :: find(id).None?) ==> Found(find, ids) == []
    ensures (forall id <- ids :: find(id).Some?) ==> |Found(find, ids)| == |ids|
    decreases |ids|
  {
    if |ids| > 0 {
      var init := ids[..|ids| - 1];
      FoundSpec(find, init);
      assert forall id <- init :: id in ids;
      var last := ids[|ids| - 1];
      forall e <- Found(find, ids)
        ensures exists id <- ids :: Calculate(find, id) == Some(e)
      {
        if e in Found(find, init) {
          var id :| id in init && Calculate(find, id) == Some(e);
          assert id in ids;
        } else {
          assert Calculate(find, last) == Some(e);
        }
      }
    }
  }

  /** `compare_players`: the estimates that exist, dearest first. */
  method ComparePlayers(find: int -> Option<PlayerRecord>, ids: seq<int>) returns (vals: seq<Estimate>)
    ensures vals == SortByPrice(Found(find, ids))
    ensures ByPriceDesc(vals) && multiset(vals) == multiset(Found(find, ids)) && |vals| <= |ids|
  {
    vals := [];
    for i := 0 to |ids|
      invariant vals == Found(find, ids[..i])
    {
      assert ids[..i + 1][..i] == ids[..i];
      var v := CalculateValuation(find, ids[i]);
      if v.Some? {
        vals := vals + [v.value];
      }
    }
    assert ids[..|ids|] == ids;
    SortByPriceSorted(vals);
    vals := SortByPrice(vals);
  }
}
