// Post-processing of a Cricbuzz profile page (app/scrapers/cricbuzz_scraper.py).
// The HTML is abstracted to the texts the scraper reads from it: the
// headings, the info lines of the bio box, the page text and the cell texts
// of the two career tables. Fetching with retries is an oracle.

module Scraper {
  import opened Strings
  import opened Values

  const BaseUrl: string := "https://www.cricbuzz.com"

  // ---------------------------------------------------------------------
  // Profile URL

  /** A slug is used only when it is truthy: None and "" both leave it out. */
  predicate HasSlug(slug: Option<string>) {
    slug.Some? && slug.value != ""
  }

  /** `/profiles/{id}/{slug}`, or `/profiles/{id}` without a slug. */
  function ProfilePath(id: int, slug: Option<string>): (p: string)
    ensures StartsWith(p, "/profiles/")
  {
    "/profiles/" + IntToString(id) + (if HasSlug(slug) then "/" + slug.value else "")
  }

  function ProfileUrl(id: int, slug: Option<string>): (u: string)
    ensures StartsWith(u, BaseUrl) && u[|BaseUrl|..] == ProfilePath(id, slug)
  {
    BaseUrl + ProfilePath(id, slug)
  }

  // ---------------------------------------------------------------------
  // Integer cells

  /**
   * `_safe_int`: commas are deleted, every '-' becomes '0', and whatever
   * `int()` then refuses reads as 0.
   */
  function SafeInt(value: string): int {
    match PyInt(Replace(RemoveAll(value, ","), "-", "0"))
    case Some(n) => n
    case None => 0
  }

  /** Replacing a one-character pattern by a text without it removes the character. */
  lemma {:induction false} ReplaceCharGone(s: string, c: char, n: string)
    requires c !in n
    ensures c !in Replace(s, [c], n)
    decreases |s|
  {
    if |s| > 0 {
      ReplaceCharGone(s[1..], c, n);
      if !StartsWith(s, [c]) {
        assert s[0] != c;
      }
    }
  }

  /** No sign survives the '-' to '0' rewrite, so a cell never reads as negative. */
  lemma SafeIntNonNegative(value: string)
    ensures SafeInt(value) >= 0
  {
    var t := Replace(RemoveAll(value, ","), "-", "0");
    ReplaceCharGone(RemoveAll(value, ","), '-', "0");
    UnsignedRead(t);
  }

  /** Text without a '-' never reads as a negative number. */
  lemma UnsignedRead(t: string)
    requires '-' !in t
    ensures PyInt(t).Some? ==> PyInt(t).value >= 0
  {
    var i := StripIsSlice(t);
    var u := Strip(t);
    if |u| > 0 {
      assert u[0] == t[i];
    }
  }

  /** A leading zero does not change the number the digits spell. */
  lemma {:induction false} DigitsLeadingZero(d: string)
    ensures DigitsNat("0" + d) == DigitsNat(d)
    decreases |d|
  {
    var z := "0" + d;
    if |d| == 0 {
      assert z[..0] == "";
    } else {
      assert z[..|z| - 1] == "0" + d[..|d| - 1];
      assert z[|z| - 1] == d[|d| - 1];
      DigitsLeadingZero(d[..|d| - 1]);
    }
  }

  /** `_safe_int` reads what `int()` makes of the rewritten text. */
  lemma SafeIntThrough(value: string, t: string, k: int)
    requires Replace(RemoveAll(value, ","), "-", "0") == t && PyInt(t) == Some(k)
    ensures SafeInt(value) == k
  { }

  /** A character that does not occur is not a one-character pattern of the text. */
  lemma AbsentChar(s: string, c: char)
    requires c !in s
    ensures !Contains(s, [c])
  {
    forall i | 0 <= i <= |s| - 1 ensures !OccursAt(s, [c], i) {
      assert s[i] in s;
    }
  }

  /** Printed integers hold no comma, and only a negative one holds a '-'. */
  lemma PrintedChars(n: int)
    ensures !Contains(IntToString(n), ",")
    ensures n >= 0 ==> !Contains(IntToString(n), "-")
  {
    var s := IntToString(n);
    AbsentChar(s, ',');
    if n >= 0 {
      AbsentChar(s, '-');
    }
  }

  /** `_safe_int(str(n)) == n` for a non-negative `n`. */
  lemma SafeIntOfNat(n: nat)
    ensures SafeInt(IntToString(n)) == n
  {
    var s := IntToString(n);
    PrintedChars(n);
    RemoveAllAbsent(s, ",");
    ReplaceAbsent(s, "-", "0");
    ParsePrinted(n);
    SafeIntThrough(s, s, n);
  }

  /** "0" followed by the digits of `n` reads as `n`. */
  lemma ZeroPaddedDigits(n: nat)
    ensures PyInt("0" + NatToString(n)) == Some(n)
  {
    var d := NatToString(n);
    var t := "0" + d;
    DigitsOfNat(n);
    assert ValidDigits(t) by {
      forall i | 0 <= i < |t| ensures IsDigit(t[i]) {
        if i > 0 { assert t[i] == d[i - 1] && d[i - 1] in d; }
      }
    }
    StripNoSpace(t);
    DigitsLeadingZero(d);
  }

  /** The rewrite turns a leading minus sign into a zero when nothing else needs rewriting. */
  lemma SignBecomesZero(d: string)
    requires ',' !in d && '-' !in d
    ensures Replace(RemoveAll("-" + d, ","), "-", "0") == "0" + d
  {
    var s := "-" + d;
    AbsentChar(s, ',');
    RemoveAllAbsent(s, ",");
    AbsentChar(d, '-');
    ReplaceAbsent(d, "-", "0");
    assert s[..1] == "-" && s[1..] == d;
  }

  /** `_safe_int(str(n)) == -n` for a negative `n`: the sign becomes a leading zero. */
  lemma SafeIntOfNegative(n: int)
    requires n < 0
    ensures SafeInt(IntToString(n)) == -n
  {
    var m: nat := -n;
    var d := NatToString(m);
    assert IntToString(n) == "-" + d;
    assert ',' !in d && '-' !in d;
    SignBecomesZero(d);
    ZeroPaddedDigits(m);
    SafeIntThrough("-" + d, "0" + d, m);
  }

  /** Reading back a printed integer gives its absolute value. */
  lemma SafeIntOfPrinted(n: int)
    ensures SafeInt(IntToString(n)) == if n < 0 then -n else n
  {
    if n < 0 { SafeIntOfNegative(n); } else { SafeIntOfNat(n); }
  }

  /** Rewriting a one-character pattern works piece by piece. */
  lemma {:induction false} ReplaceCharAppend(a: string, b: string, c: char, n: string)
    ensures Replace(a + b, [c], n) == Replace(a, [c], n) + Replace(b, [c], n)
    decreases |a|
  {
    if |a| == 0 {
      assert a + b == b;
    } else {
      assert (a + b)[0] == a[0];
      assert StartsWith(a + b, [c]) <==> StartsWith(a, [c]);
      assert (a + b)[1..] == a[1..] + b;
      ReplaceCharAppend(a[1..], b, c, n);
    }
  }

  /** A comma anywhere in a cell is ignored. */
  lemma SafeIntIgnoresComma(x: string, y: string)
    ensures SafeInt(x + "," + y) == SafeInt(x + y)
  {
    ReplaceCharAppend(x + ",", y, ',', "");
    ReplaceCharAppend(x, ",", ',', "");
    ReplaceCharAppend(x, y, ',', "");
    assert Replace(",", ",", "") == "";
    assert RemoveAll(x + "," + y, ",") == RemoveAll(x + y, ",");
  }

  /** Decimal texts used by the examples below. */
  lemma PrintedExamples()
    ensures IntToString(0) == "0" && IntToString(1234) == "1234" && IntToString(-12) == "-12"
  {
    assert DigitChar(0) == '0' && DigitChar(1) == '1' && DigitChar(2) == '2';
    assert DigitChar(3) == '3' && DigitChar(4) == '4';
    assert NatToString(1) == "1";
    assert NatToString(12) == "12";
    assert NatToString(123) == "123";
  }

  lemma CommaExampleParts()
    ensures "1" + "," + "234" == "1,234" && "1" + "234" == "1234"
  { }

  /** Thousands separators are dropped: "1,234" reads as 1234. */
  lemma SafeIntDropsCommas()
    ensures SafeInt("1,234") == 1234
  {
    SafeIntIgnoresComma("1", "234");
    CommaExampleParts();
    SafeIntOfNat(1234);
    PrintedExamples();
  }

  /** The dash of an empty cell reads as 0. */
  lemma SafeIntDash()
    ensures SafeInt("-") == 0
  {
    assert RemoveAll("-", ",") == "-";
    assert Replace("-", "-", "0") == "0";
    ParsePrinted(0);
    PrintedExamples();
    SafeIntThrough("-", "0", 0);
  }

  /** A minus sign is not a sign: "-12" reads as 12. */
  lemma SafeIntDashDigits()
    ensures SafeInt("-12") == 12
  {
    SafeIntOfNegative(-12);
    PrintedExamples();
  }

  /** A cell without commas or dashes that `int()` refuses reads as 0. */
  lemma SafeIntRefused(value: string)
    requires ',' !in value && '-' !in value && PyInt(value).None?
    ensures SafeInt(value) == 0
  {
    AbsentChar(value, ',');
    RemoveAllAbsent(value, ",");
    AbsentChar(value, '-');
    ReplaceAbsent(value, "-", "0");
  }

  /** Text that is not a number reads as 0. */
  lemma SafeIntText(value: string)
    requires value == "n/a"
    ensures SafeInt(value) == 0
  {
    assert value[0] == 'n' && value[|value| - 1] == 'a';
    StripNoSpace(value);
    assert !IsDigit(value[0]);
    SafeIntRefused(value);
  }

  // ---------------------------------------------------------------------
  // The page

  /** The page, reduced to the texts the scraper reads from it. */
  datatype Page = Page(
    styledHeading: Option<string>,          // the first `h1` of class cb-font-40
    heading: Option<string>,                // the first `h1`
    title: Option<string>,                  // the `title` tag
    infoLines: Option<seq<string>>,         // the info rows, when the info box is present
    text: string,                           // all the text of the page
    battingRows: Option<seq<seq<string>>>,  // cell texts of the batting table, header row first
    bowlingRows: Option<seq<seq<string>>>)  // cell texts of the bowling table, header row first

  // ---------------------------------------------------------------------
  // Bio

  /** The keys `_extract_bio` writes. */
  datatype BioKey = NameKey | CountryKey | RoleKey | BattingStyleKey | BowlingStyleKey

  type Bio = map<BioKey, string>

  const UnknownPlayer: string := "Unknown Player"
  const Unknown: string := "Unknown"

  /**
   * The name candidate: the styled heading, else any heading, else the text
   * of the title before its first '|'; stripped.
   */
  function HeadingName(page: Page): Option<string> {
    var elem := if page.styledHeading.Some? then page.styledHeading else page.heading;
    if elem.Some? then Some(Strip(elem.value))
    else if page.title.Some? then Some(Strip(SplitOn(page.title.value, '|')[0]))
    else None
  }

  /** The stored name: the candidate, or "Unknown Player" when it is missing or empty. */
  function BioName(page: Page): string {
    var n := HeadingName(page);
    if n.Some? && n.value != "" then n.value else UnknownPlayer
  }

  /** `text.split(sep, 1)` when `sep` occurs: the parts before and after its first occurrence. */
  function SplitFirst(text: string, sep: char): (r: (string, string))
    requires sep in text
    ensures r.0 + [sep] + r.1 == text && sep !in r.0
  {
    var n := FieldLen(text, sep);
    assert text[..n] + [sep] + text[n + 1..] == text;
    (text[..n], text[n + 1..])
  }

  /**
   * What an info row with the lower-cased key `key` and the value `value`
   * writes: a birth row gives the country, its last comma-separated part,
   * and only when there are at least two parts; then role and the two styles.
   */
  function EntryFor(key: string, value: string): Option<(BioKey, string)> {
    if Contains(key, "born") || Contains(key, "birth") then
      var parts := SplitOn(value, ',');
      if |parts| >= 2 then Some((CountryKey, Strip(parts[|parts| - 1]))) else None
    else if Contains(key, "role") then Some((RoleKey, value))
    else if Contains(key, "batting") && Contains(key, "style") then Some((BattingStyleKey, value))
    else if Contains(key, "bowling") && Contains(key, "style") then Some((BowlingStyleKey, value))
    else None
  }

  /** An info row: stripped, split at its first ':', key stripped and lower-cased, value stripped. */
  function InfoEntry(line: string): Option<(BioKey, string)> {
    var text := Strip(line);
    if ':' !in text then None
    else
      var (k, v) := SplitFirst(text, ':');
      EntryFor(ToLower(Strip(k)), Strip(v))
  }

  /** What an info row writes, if anything. */
  type Classifier = string -> Option<(BioKey, string)>

  /**
   * The bio after the info rows, each row overwriting what earlier rows
   * wrote; keys are only ever added.
   */
  function InfoBio(bio: Bio, lines: seq<string>, entry: Classifier): (r: Bio)
    ensures bio.Keys <= r.Keys
    decreases |lines|
  {
    if |lines| == 0 then bio
    else
      var before := InfoBio(bio, lines[..|lines| - 1], entry);
      var e := entry(lines[|lines| - 1]);
      if e.Some? then before[e.value.0 := e.value.1] else before
  }

  /** One more row on top of a prefix. */
  lemma InfoBioStep(bio: Bio, lines: seq<string>, i: nat, entry: Classifier)
    requires i < |lines|
    ensures InfoBio(bio, lines[..i + 1], entry)
      == var e := entry(lines[i]);
         if e.Some? then InfoBio(bio, lines[..i], entry)[e.value.0 := e.value.1] else InfoBio(bio, lines[..i], entry)
  {
    assert lines[..i + 1][..i] == lines[..i];
  }

  /** The role read from the page text when no info row gave one, tried in this order. */
  function PageRole(text: string): Option<string> {
    if Contains(text, "Batsman") || Contains(text, "Batter") then Some("Batsman")
    else if Contains(text, "Bowler") then Some("Bowler")
    else if Contains(text, "All-Rounder") || Contains(text, "Allrounder") then Some("All-Rounder")
    else if Contains(text, "Wicket-Keeper") || Contains(text, "Wicketkeeper") then Some("Wicket-Keeper")
    else None
  }

  /** The bio once the name is set and the info rows are read. */
  function InfoStage(page: Page): (r: Bio)
    ensures NameKey in r
  {
    var named := map[NameKey := BioName(page)];
    if page.infoLines.Some? then InfoBio(named, page.infoLines.value, InfoEntry) else named
  }

  /** The bio once the role fallback has run. */
  function RoleStage(page: Page): (r: Bio)
    ensures NameKey in r
  {
    var info := InfoStage(page);
    var role := PageRole(page.text);
    if RoleKey !in info && role.Some? then info[RoleKey := role.value] else info
  }

  /** A field the bio lacks is set to "Unknown"; nothing else changes. */
  function WithDefault(bio: Bio, k: BioKey): (r: Bio)
    ensures k in r && forall j | j in bio :: j in r && r[j] == bio[j]
  {
    if k in bio then bio else bio[k := Unknown]
  }

  /** `_extract_bio` */
  function BioOf(page: Page): Bio {
    var b := RoleStage(page);
    WithDefault(WithDefault(WithDefault(WithDefault(b, CountryKey), RoleKey), BattingStyleKey), BowlingStyleKey)
  }

  /** The name step of `_extract_bio`: headings, then the title, then the fallback. */
  method NameBio(page: Page) returns (bio: Bio)
    ensures bio == map[NameKey := BioName(page)]
  {
    bio := map[];
    var elem := page.styledHeading;
    if elem.None? {
      elem := page.heading;
    }
    if elem.None? && page.title.Some? {
      bio := bio[NameKey := Strip(SplitOn(page.title.value, '|')[0])];
    }
    if elem.Some? {
      bio := bio[NameKey := Strip(elem.value)];
    }
    assert HeadingName(page).Some? <==> NameKey in bio;
    assert bio.Keys <= {NameKey} && (NameKey in bio ==> bio[NameKey] == HeadingName(page).value);
    if NameKey !in bio || bio[NameKey] == "" {
      bio := bio[NameKey := UnknownPlayer];
    }
  }

  /** The loop of `_extract_bio` over the info rows. */
  method ReadInfoRows(named: Bio, lines: seq<string>) returns (bio: Bio)
    ensures bio == InfoBio(named, lines, InfoEntry)
  {
    bio := named;
    for i := 0 to |lines|
      invariant bio == InfoBio(named, lines[..i], InfoEntry)
    {
      InfoBioStep(named, lines, i, InfoEntry);
      var entry := InfoEntry(lines[i]);
      if entry.Some? {
        bio := bio[entry.value.0 := entry.value.1];
      }
    }
    assert lines[..|lines|] == lines;
  }

  /** `_extract_bio`, writing the bio dictionary step by step. */
  method ExtractBio(page: Page) returns (bio: Bio)
    ensures bio == BioOf(page)
  {
    bio := NameBio(page);
    if page.infoLines.Some? {
      bio := ReadInfoRows(bio, page.infoLines.value);
    }
    assert bio == InfoStage(page);
    if RoleKey !in bio {
      var role := PageRole(page.text);
      if role.Some? {
        bio := bio[RoleKey := role.value];
      }
    }
    assert bio == RoleStage(page);
    if CountryKey !in bio {
      bio := bio[CountryKey := Unknown];
    }
    if RoleKey !in bio {
      bio := bio[RoleKey := Unknown];
    }
    if BattingStyleKey !in bio {
      bio := bio[BattingStyleKey := Unknown];
    }
    if BowlingStyleKey !in bio {
      bio := bio[BowlingStyleKey := Unknown];
    }
  }

  // ---------------------------------------------------------------------
  // Career tables

  /** A batting row as stored: the format and the counts of one career line. */
  datatype BattingStat = BattingStat(
    format: string, matches: int, innings: int, runs: int, highest: string,
    average: real, strikeRate: real, hundreds: int, fifties: int, fours: int, sixes: int)

  /** A bowling row as stored. */
  datatype BowlingStat = BowlingStat(
    format: string, matches: int, innings: int, wickets: int, average: real,
    economy: real, strikeRate: real, fiveWicketHaul: int, tenWicketHaul: int)

  /** `_safe_float`, which this model does not spell out. */
  type RealReader = string -> real

  /** Batting rows with fewer cells are dropped. */
  const BattingCells: nat := 8
  /** Bowling rows with fewer cells are dropped. */
  const BowlingCells: nat := 7

  /** A text column, stripped; "" when the row is too short for it. */
  function TextCell(cols: seq<string>, i: nat): string {
    if i < |cols| then Strip(cols[i]) else ""
  }

  /** An integer column: `_safe_int` of the stripped cell, 0 when the row is too short for it. */
  function IntCell(cols: seq<string>, i: nat): int {
    if i < |cols| then SafeInt(Strip(cols[i])) else 0
  }

  /** A real column: the reader on the stripped cell, 0.0 when the row is too short for it. */
  function RealCell(cols: seq<string>, i: nat, read: RealReader): real {
    if i < |cols| then read(Strip(cols[i])) else 0.0
  }

  /** A batting row; only rows with at least `BattingCells` cells are ever read. */
  function BattingOf(cols: seq<string>, read: RealReader): BattingStat {
    BattingStat(ToUpper(TextCell(cols, 0)), IntCell(cols, 1), IntCell(cols, 2), IntCell(cols, 4),
      TextCell(cols, 5), RealCell(cols, 6, read), RealCell(cols, 8, read),
      IntCell(cols, 9), IntCell(cols, 10), IntCell(cols, 11), IntCell(cols, 12))
  }

  /** A bowling row; only rows with at least `BowlingCells` cells are ever read. */
  function BowlingOf(cols: seq<string>, read: RealReader): BowlingStat {
    BowlingStat(ToUpper(TextCell(cols, 0)), IntCell(cols, 1), IntCell(cols, 2), IntCell(cols, 4),
      RealCell(cols, 6, read), RealCell(cols, 7, read), RealCell(cols, 8, read),
      IntCell(cols, 10), IntCell(cols, 11))
  }

  function BattingParser(read: RealReader): seq<string> -> BattingStat {
    cols => BattingOf(cols, read)
  }

  function BowlingParser(read: RealReader): seq<string> -> BowlingStat {
    cols => BowlingOf(cols, read)
  }

  /** `rows[1:]`: everything after the header row. */
  function Body(rows: seq<seq<string>>): (b: seq<seq<string>>)
    ensures |b| == if |rows| == 0 then 0 else |rows| - 1
    ensures forall k | 0 <= k < |b| :: b[k] == rows[k + 1]
  {
    if |rows| == 0 then [] else rows[1..]
  }

  /** The parsed rows among `rows` with at least `min` cells, in order; shorter rows are skipped. */
  function Kept<T>(rows: seq<seq<string>>, min: nat, parse: seq<string> -> T): seq<T>
    decreases |rows|
  {
    if |rows| == 0 then []
    else
      var before := Kept(rows[..|rows| - 1], min, parse);
      var last := rows[|rows| - 1];
      if |last| < min then before else before + [parse(last)]
  }

  /** One more row on top of a prefix. */
  lemma KeptStep<T>(rows: seq<seq<string>>, i: nat, min: nat, parse: seq<string> -> T)
    requires i < |rows|
    ensures Kept(rows[..i + 1], min, parse)
      == if |rows[i]| < min then Kept(rows[..i], min, parse) else Kept(rows[..i], min, parse) + [parse(rows[i])]
  {
    assert rows[..i + 1][..i] == rows[..i];
  }

  /** `_extract_batting_stats`: no table gives no stats. */
  function BattingTable(rows: Option<seq<seq<string>>>, read: RealReader): seq<BattingStat> {
    if rows.None? then [] else Kept(Body(rows.value), BattingCells, BattingParser(read))
  }

  /** `_extract_bowling_stats` */
  function BowlingTable(rows: Option<seq<seq<string>>>, read: RealReader): seq<BowlingStat> {
    if rows.None? then [] else Kept(Body(rows.value), BowlingCells, BowlingParser(read))
  }

  /** `_extract_batting_stats`: the loop over the rows after the header. */
  method ParseBattingStats(rows: Option<seq<seq<string>>>, read: RealReader) returns (stats: seq<BattingStat>)
    ensures stats == BattingTable(rows, read)
  {
    stats := [];
    if rows.None? {
      return;
    }
    var body := if |rows.value| == 0 then [] else rows.value[1..];
    for i := 0 to |body|
      invariant stats == Kept(body[..i], BattingCells, BattingParser(read))
    {
      KeptStep(body, i, BattingCells, BattingParser(read));
      var cols := body[i];
      if |cols| < BattingCells {
        continue;
      }
      stats := stats + [BattingOf(cols, read)];
    }
    assert body[..|body|] == body;
  }

  /** `_extract_bowling_stats`: the loop over the rows after the header. */
  method ParseBowlingStats(rows: Option<seq<seq<string>>>, read: RealReader) returns (stats: seq<BowlingStat>)
    ensures stats == BowlingTable(rows, read)
  {
    stats := [];
    if rows.None? {
      return;
    }
    var body := if |rows.value| == 0 then [] else rows.value[1..];
    for i := 0 to |body|
      invariant stats == Kept(body[..i], BowlingCells, BowlingParser(read))
    {
      KeptStep(body, i, BowlingCells, BowlingParser(read));
      var cols := body[i];
      if |cols| < BowlingCells {
        continue;
      }
      stats := stats + [BowlingOf(cols, read)];
    }
    assert body[..|body|] == body;
  }

  // ---------------------------------------------------------------------
  // Player details

  /** The dictionary `extract_player_details` returns. */
  datatype PlayerDetails = PlayerDetails(
    cricbuzzId: int, profileUrl: string, bio: Bio,
    batting: seq<BattingStat>, bowling: seq<BowlingStat>)

  /** Fetching a page, with its retries; None stands for a failed fetch. */
  type Fetcher = string -> Option<Page>

  function Details(fetch: Fetcher, id: int, slug: Option<string>, read: RealReader): Option<PlayerDetails> {
    var url := ProfileUrl(id, slug);
    var page := fetch(url);
    if page.None? then None
    else Some(PlayerDetails(id, url, BioOf(page.value),
      BattingTable(page.value.battingRows, read), BowlingTable(page.value.bowlingRows, read)))
  }

  /** `extract_player_details` */
  method ExtractPlayerDetails(fetch: Fetcher, id: int, slug: Option<string>, read: RealReader)
    returns (r: Option<PlayerDetails>)
    ensures r == Details(fetch, id, slug, read)
  {
    var url := ProfileUrl(id, slug);
    var page := fetch(url);
    if page.None? {
      return None;
    }
    var bio := ExtractBio(page.value);
    var batting := ParseBattingStats(page.value.battingRows, read);
    var bowling := ParseBowlingStats(page.value.bowlingRows, read);
    r := Some(PlayerDetails(id, url, bio, batting, bowling));
  }

  // ---------------------------------------------------------------------
  // What the bio promises

  /** No info row writes the name. */
  lemma InfoEntryNotName()
    ensures forall line :: InfoEntry(line).None? || InfoEntry(line).value.0 != NameKey
  {
    forall line ensures InfoEntry(line).None? || InfoEntry(line).value.0 != NameKey {
      var text := Strip(line);
      if ':' in text {
        var (k, v) := SplitFirst(text, ':');
        EntryForNotName(ToLower(Strip(k)), Strip(v));
      }
    }
  }

  /** The key a row writes is never the name. */
  lemma EntryForNotName(key: string, value: string)
    ensures EntryFor(key, value).None? || EntryFor(key, value).value.0 != NameKey
  { }

  /** Rows that never write the name leave it as it was. */
  lemma {:induction false} InfoKeepsName(bio: Bio, lines: seq<string>, entry: Classifier)
    requires NameKey in bio
    requires forall line :: entry(line).None? || entry(line).value.0 != NameKey
    ensures InfoBio(bio, lines, entry)[NameKey] == bio[NameKey]
    decreases |lines|
  {
    if |lines| > 0 {
      InfoKeepsName(bio, lines[..|lines| - 1], entry);
    }
  }

  /**
   * The last row that writes a key decides its value, whatever earlier rows
   * wrote.
   */
  lemma {:induction false} InfoLastWins(bio: Bio, lines: seq<string>, entry: Classifier, j: nat, k: BioKey, v: string)
    requires j < |lines| && entry(lines[j]) == Some((k, v))
    requires forall i | j < i < |lines| :: entry(lines[i]).None? || entry(lines[i]).value.0 != k
    ensures k in InfoBio(bio, lines, entry) && InfoBio(bio, lines, entry)[k] == v
    decreases |lines|
  {
    var init := lines[..|lines| - 1];
    if j < |lines| - 1 {
      assert forall i | j < i < |init| :: init[i] == lines[i];
      InfoLastWins(bio, init, entry, j, k, v);
    }
  }

  /** A key no row writes keeps what it had before the rows. */
  lemma {:induction false} InfoUntouched(bio: Bio, lines: seq<string>, entry: Classifier, k: BioKey)
    requires forall i | 0 <= i < |lines| :: entry(lines[i]).None? || entry(lines[i]).value.0 != k
    ensures (k in InfoBio(bio, lines, entry) <==> k in bio)
    ensures k in bio ==> InfoBio(bio, lines, entry)[k] == bio[k]
    decreases |lines|
  {
    if |lines| > 0 {
      var init := lines[..|lines| - 1];
      assert forall i | 0 <= i < |init| :: init[i] == lines[i];
      InfoUntouched(bio, init, entry, k);
    }
  }

  /** The bio always has all five fields. */
  lemma BioHasAllFields(page: Page)
    ensures forall k: BioKey :: k in BioOf(page)
  {
    forall k: BioKey ensures k in BioOf(page) {
      match k
      case NameKey => assert NameKey in RoleStage(page);
      case _ =>
    }
  }

  /** The name is never empty and is not touched by the info rows. */
  lemma BioNameKept(page: Page)
    ensures BioOf(page)[NameKey] == BioName(page) != ""
  {
    var named := map[NameKey := BioName(page)];
    if page.infoLines.Some? {
      InfoEntryNotName();
      InfoKeepsName(named, page.infoLines.value, InfoEntry);
    }
    assert |UnknownPlayer| > 0;
  }

  /**
   * The other fields are what the info rows wrote, with the role read from
   * the page text before "Unknown" is used.
   */
  lemma BioDefaults(page: Page)
    ensures var info := InfoStage(page);
      && BioOf(page)[CountryKey] == (if CountryKey in info then info[CountryKey] else Unknown)
      && BioOf(page)[RoleKey] == (if RoleKey in info then info[RoleKey] else PageRole(page.text).GetOr(Unknown))
      && BioOf(page)[BattingStyleKey] == (if BattingStyleKey in info then info[BattingStyleKey] else Unknown)
      && BioOf(page)[BowlingStyleKey] == (if BowlingStyleKey in info then info[BowlingStyleKey] else Unknown)
  { }

  /**
   * Where the name comes from: the styled heading, else the first heading,
   * else the title before its first '|', each stripped; "Unknown Player"
   * when the chosen text is empty or there is none.
   */
  lemma BioNameSources(page: Page)
    ensures page.styledHeading.Some? && Strip(page.styledHeading.value) != ""
      ==> BioOf(page)[NameKey] == Strip(page.styledHeading.value)
    ensures page.styledHeading.None? && page.heading.Some? && Strip(page.heading.value) != ""
      ==> BioOf(page)[NameKey] == Strip(page.heading.value)
    ensures page.styledHeading.None? && page.heading.None? && page.title.Some?
      && Strip(SplitOn(page.title.value, '|')[0]) != ""
      ==> BioOf(page)[NameKey] == Strip(SplitOn(page.title.value, '|')[0])
    ensures page.styledHeading.None? && page.heading.None? && page.title.None?
      ==> BioOf(page)[NameKey] == UnknownPlayer
  {
    BioNameKept(page);
  }

  /** The prefix free of `sep` ends where `sep` first occurs. */
  lemma {:induction false} FieldLenAt(k: string, sep: char, v: string)
    requires sep !in k
    ensures FieldLen(k + [sep] + v, sep) == |k|
    decreases |k|
  {
    var t := k + [sep] + v;
    if |k| > 0 {
      assert t[0] == k[0] && k[0] in k;
      assert t[1..] == k[1..] + [sep] + v;
      FieldLenAt(k[1..], sep, v);
    }
  }

  /** Only the first separator splits: the value keeps any later ones. */
  lemma SplitFirstOf(k: string, sep: char, v: string)
    requires sep !in k
    ensures sep in k + [sep] + v && SplitFirst(k + [sep] + v, sep) == (k, v)
  {
    var t := k + [sep] + v;
    assert t[|k|] == sep;
    FieldLenAt(k, sep, v);
    assert t[..|k|] == k && t[|k| + 1..] == v;
  }

  /**
   * An info row `key:value` (no ':' in the key, no whitespace around the row)
   * is classified by its lower-cased, stripped key and its stripped value.
   */
  lemma InfoRowParts(k: string, v: string)
    requires ':' !in k && Strip(k + ":" + v) == k + ":" + v
    ensures InfoEntry(k + ":" + v) == EntryFor(ToLower(Strip(k)), Strip(v))
  {
    SplitFirstOf(k, ':', v);
  }

  /** A row without ':' writes nothing. */
  lemma NoColonRow(line: string)
    requires ':' !in line
    ensures InfoEntry(line).None?
  {
    var i := StripIsSlice(line);
    var t := Strip(line);
    forall c | c in t ensures c != ':' {
      var x :| 0 <= x < |t| && t[x] == c;
      assert line[i + x] == c;
    }
  }

  /** Splitting `a + sep + c` with `c` free of `sep` gives at least two parts, the last being `c`. */
  lemma {:induction false} SplitOnLast(a: string, sep: char, c: string)
    requires sep !in c
    ensures var parts := SplitOn(a + [sep] + c, sep);
      |parts| >= 2 && parts[|parts| - 1] == c
    decreases |a|
  {
    var t := a + [sep] + c;
    var n := FieldLen(t, sep);
    if sep in a {
      var x :| 0 <= x < |a| && a[x] == sep;
      assert t[x] == sep;
      assert n <= x;
      assert t[n + 1..] == a[n + 1..] + [sep] + c;
      SplitOnLast(a[n + 1..], sep, c);
    } else {
      FieldLenAt(a, sep, c);
      assert t[n + 1..] == c;
      assert FieldLen(c, sep) == |c|;
    }
  }

  /** Without a second separator the text is the only part. */
  lemma SplitOnNone(s: string, sep: char)
    requires sep !in s
    ensures SplitOn(s, sep) == [s]
  {
    assert FieldLen(s, sep) == |s|;
  }

  /** A birth row names the country by the text after its last comma. */
  lemma BirthRowCountry(key: string, a: string, c: string)
    requires Contains(key, "born") || Contains(key, "birth")
    requires ',' !in c
    ensures EntryFor(key, a + "," + c) == Some((CountryKey, Strip(c)))
  {
    SplitOnLast(a, ',', c);
  }

  /** A birth row without a comma writes nothing, not even a role. */
  lemma BirthRowNoComma(key: string, value: string)
    requires Contains(key, "born") || Contains(key, "birth")
    requires ',' !in value
    ensures EntryFor(key, value).None?
  {
    SplitOnNone(value, ',');
  }

  // ---------------------------------------------------------------------
  // What the tables promise

  lemma IntCellNonNegative(cols: seq<string>, i: nat)
    ensures IntCell(cols, i) >= 0
  {
    if i < |cols| {
      SafeIntNonNegative(Strip(cols[i]));
    }
  }

  /**
   * A kept batting row never has a negative count, and each optional column
   * the row is too short for reads 0.
   */
  lemma BattingRowRules(cols: seq<string>, read: RealReader)
    ensures var b := BattingOf(cols, read);
      b.matches >= 0 && b.innings >= 0 && b.runs >= 0
      && b.hundreds >= 0 && b.fifties >= 0 && b.fours >= 0 && b.sixes >= 0
      && (|cols| <= 8 ==> b.strikeRate == 0.0) && (|cols| <= 9 ==> b.hundreds == 0)
      && (|cols| <= 10 ==> b.fifties == 0) && (|cols| <= 11 ==> b.fours == 0)
      && (|cols| <= 12 ==> b.sixes == 0)
  {
    IntCellNonNegative(cols, 1);
    IntCellNonNegative(cols, 2);
    IntCellNonNegative(cols, 4);
    IntCellNonNegative(cols, 9);
    IntCellNonNegative(cols, 10);
    IntCellNonNegative(cols, 11);
    IntCellNonNegative(cols, 12);
  }

  /** The same for a kept bowling row. */
  lemma BowlingRowRules(cols: seq<string>, read: RealReader)
    ensures var b := BowlingOf(cols, read);
      b.matches >= 0 && b.innings >= 0 && b.wickets >= 0
      && b.fiveWicketHaul >= 0 && b.tenWicketHaul >= 0
      && (|cols| <= 7 ==> b.economy == 0.0) && (|cols| <= 8 ==> b.strikeRate == 0.0)
      && (|cols| <= 10 ==> b.fiveWicketHaul == 0) && (|cols| <= 11 ==> b.tenWicketHaul == 0)
  {
    IntCellNonNegative(cols, 1);
    IntCellNonNegative(cols, 2);
    IntCellNonNegative(cols, 4);
    IntCellNonNegative(cols, 10);
    IntCellNonNegative(cols, 11);
  }

  /** `x` is the parse of one of `rows[lo..]` that has at least `min` cells. */
  ghost predicate FromLongRow<T>(x: T, rows: seq<seq<string>>, lo: nat, min: nat, parse: seq<string> -> T) {
    exists k | lo <= k < |rows| :: |rows[k]| >= min && x == parse(rows[k])
  }

  /**
   * Each kept entry is the parse of a row with enough cells, and every such
   * row gives one: at most one entry per row.
   */
  lemma {:induction false} KeptRows<T>(rows: seq<seq<string>>, min: nat, parse: seq<string> -> T)
    ensures var out := Kept(rows, min, parse);
      && |out| <= |rows|
      && (forall i | 0 <= i < |out| :: FromLongRow(out[i], rows, 0, min, parse))
      && (forall k | 0 <= k < |rows| && |rows[k]| >= min :: parse(rows[k]) in out)
    decreases |rows|
  {
    if |rows| > 0 {
      var init := rows[..|rows| - 1];
      KeptRows(init, min, parse);
      var before := Kept(init, min, parse);
      var out := Kept(rows, min, parse);
      assert forall k | 0 <= k < |init| :: init[k] == rows[k];
      assert forall x | x in before :: x in out;
      forall i | 0 <= i < |out| ensures FromLongRow(out[i], rows, 0, min, parse) {
        if i < |before| {
          assert FromLongRow(before[i], init, 0, min, parse);
          var k :| 0 <= k < |init| && |init[k]| >= min && before[i] == parse(init[k]);
          assert out[i] == before[i] && rows[k] == init[k];
        } else {
          assert out[i] == parse(rows[|rows| - 1]);
        }
      }
    }
  }

  /**
   * The header row is never read: every entry comes from a later row with
   * at least `min` cells, and every such row gives one.
   */
  lemma TableRows<T>(rows: seq<seq<string>>, min: nat, parse: seq<string> -> T)
    ensures var out := Kept(Body(rows), min, parse);
      && |out| <= |Body(rows)|
      && (forall i | 0 <= i < |out| :: FromLongRow(out[i], rows, 1, min, parse))
      && (forall k | 1 <= k < |rows| && |rows[k]| >= min :: parse(rows[k]) in out)
  {
    var body := Body(rows);
    KeptRows(body, min, parse);
    var out := Kept(body, min, parse);
    forall i | 0 <= i < |out| ensures FromLongRow(out[i], rows, 1, min, parse) {
      assert FromLongRow(out[i], body, 0, min, parse);
      var k :| 0 <= k < |body| && |body[k]| >= min && out[i] == parse(body[k]);
      assert body[k] == rows[k + 1];
    }
    forall k | 1 <= k < |rows| && |rows[k]| >= min ensures parse(rows[k]) in out {
      assert body[k - 1] == rows[k];
    }
  }

  /**
   * A failed fetch gives None; otherwise the details carry the id, the URL
   * that was fetched and a bio with all five fields.
   */
  lemma DetailsShape(fetch: Fetcher, id: int, slug: Option<string>, read: RealReader)
    ensures var r := Details(fetch, id, slug, read);
      && (r.None? <==> fetch(ProfileUrl(id, slug)).None?)
      && (r.Some? ==> r.value.cricbuzzId == id && r.value.profileUrl == ProfileUrl(id, slug)
                      && forall k: BioKey :: k in r.value.bio)
  {
    var page := fetch(ProfileUrl(id, slug));
    if page.Some? {
      BioHasAllFields(page.value);
    }
  }
}
