// The profile-link helpers of the Cricbuzz URL finder script: the search
// request, the filter that keeps player links among the page's anchors, and
// the parser that reads a player id and slug back out of a profile path.

module FindPlayerUrl {
  import opened Strings
  import opened Values
  import opened Scraper

  // ---------------------------------------------------------------------
  // Stripping slashes

  /** `s.lstrip('/')` */
  function LStripSlashes(s: string): (r: string)
    ensures |r| <= |s| && r == s[|s| - |r|..]
    ensures |r| > 0 ==> r[0] != '/'
    ensures forall i | 0 <= i < |s| - |r| :: s[i] == '/'
  {
    if |s| > 0 && s[0] == '/' then LStripSlashes(s[1..]) else s
  }

  /** `s.strip('/')`: slashes removed from both ends. */
  function StripSlashes(s: string): (r: string)
    ensures |r| > 0 ==> r[0] != '/' && r[|r| - 1] != '/'
  {
    RStripChars(LStripSlashes(s), "/")
  }

  /** A text that neither starts nor ends with a slash is left as it is. */
  lemma StripSlashesKeeps(s: string)
    requires |s| > 0 && s[0] != '/' && s[|s| - 1] != '/'
    ensures StripSlashes(s) == s
  {
  }

  /** A leading slash makes no difference. */
  lemma StripLeadingSlash(s: string)
    ensures StripSlashes("/" + s) == StripSlashes(s)
  {
    assert ("/" + s)[1..] == s;
  }

  /** Stripping the start commutes with adding a trailing slash once something other than a slash is left. */
  lemma {:induction false} LStripSlashesAppend(s: string)
    requires |LStripSlashes(s)| > 0
    ensures LStripSlashes(s + "/") == LStripSlashes(s) + "/"
    decreases |s|
  {
    if s[0] == '/' {
      assert (s + "/")[1..] == s[1..] + "/";
      LStripSlashesAppend(s[1..]);
    }
  }

  /** A trailing slash makes no difference. */
  lemma TrailingSlashIgnored(s: string)
    ensures StripSlashes(s + "/") == StripSlashes(s)
  {
    var t := LStripSlashes(s);
    if |t| > 0 {
      LStripSlashesAppend(s);
      assert (t + "/")[|t|] == '/';
      assert (t + "/")[..|t|] == t;
      assert RStripChars(t + "/", "/") == RStripChars(t, "/");
    } else {
      forall i | 0 <= i < |s + "/"| ensures (s + "/")[i] == '/' {
        if i < |s| {
          assert (s + "/")[i] == s[i];
        }
      }
      SlashesOnly(s + "/");
      assert LStripSlashes(s + "/") == t;
    }
  }

  /** A text made of slashes only is stripped to nothing. */
  lemma {:induction false} SlashesOnly(s: string)
    requires forall i | 0 <= i < |s| :: s[i] == '/'
    ensures LStripSlashes(s) == ""
    decreases |s|
  {
    if |s| > 0 {
      SlashesOnly(s[1..]);
    }
  }

  // ---------------------------------------------------------------------
  // extract_id_and_slug

  /**
   * `extract_id_and_slug`: the second and third `/`-separated segments of the
   * stripped path when there are at least three and the first is `profiles`;
   * `(None, None)` otherwise.
   */
  function ExtractIdAndSlug(url: string): (r: (Option<string>, Option<string>))
    ensures r.0.Some? <==> r.1.Some?
  {
    var parts := SplitOn(StripSlashes(url), '/');
    if |parts| >= 3 && parts[0] == "profiles" then (Some(parts[1]), Some(parts[2])) else (None, None)
  }

  lemma Regroup2(a: string, b: string)
    ensures "/" + a + "/" + b == "/" + (a + "/" + b)
    ensures a + "/" + b == a + ['/'] + b
  {
  }

  lemma Regroup3(a: string, b: string, c: string)
    ensures "/" + a + "/" + b + "/" + c == "/" + (a + "/" + b + "/" + c)
    ensures a + "/" + b + "/" + c == a + ['/'] + (b + ['/'] + c)
  {
  }

  lemma Regroup4(a: string, b: string, c: string, tail: string)
    ensures "/" + a + "/" + b + "/" + c + "/" + tail == "/" + (a + "/" + b + "/" + c + "/" + tail)
    ensures a + "/" + b + "/" + c + "/" + tail == a + ['/'] + (b + ['/'] + (c + ['/'] + tail))
  {
  }

  /** A text that neither starts nor ends with a slash, behind one slash, is stripped back to itself. */
  lemma StripSlashed(body: string)
    requires body != "" && body[0] != '/' && body[|body| - 1] != '/'
    ensures StripSlashes("/" + body) == body
  {
    StripLeadingSlash(body);
    StripSlashesKeeps(body);
  }

  lemma StripPath2(a: string, b: string)
    requires a != "" && a[0] != '/' && b != "" && b[|b| - 1] != '/'
    ensures StripSlashes("/" + a + "/" + b) == a + "/" + b
  {
    Regroup2(a, b);
    StripSlashed(a + "/" + b);
  }

  lemma StripPath3(a: string, b: string, c: string)
    requires a != "" && a[0] != '/' && c != "" && c[|c| - 1] != '/'
    ensures StripSlashes("/" + a + "/" + b + "/" + c) == a + "/" + b + "/" + c
  {
    Regroup3(a, b, c);
    StripSlashed(a + "/" + b + "/" + c);
  }

  lemma StripPath4(a: string, b: string, c: string, tail: string)
    requires a != "" && a[0] != '/' && tail != "" && tail[|tail| - 1] != '/'
    ensures StripSlashes("/" + a + "/" + b + "/" + c + "/" + tail) == a + "/" + b + "/" + c + "/" + tail
  {
    Regroup4(a, b, c, tail);
    StripSlashed(a + "/" + b + "/" + c + "/" + tail);
  }

  lemma SplitSegments2(a: string, b: string)
    requires '/' !in a && '/' !in b
    ensures SplitOn(a + "/" + b, '/') == [a, b]
  {
    Regroup2(a, b);
    SplitOnFirst(a, b, '/');
    SplitOnNoSep(b, '/');
  }

  lemma SplitSegments3(a: string, b: string, c: string)
    requires '/' !in a && '/' !in b && '/' !in c
    ensures SplitOn(a + "/" + b + "/" + c, '/') == [a, b, c]
  {
    Regroup3(a, b, c);
    SplitOnFirst(a, b + ['/'] + c, '/');
    SplitOnFirst(b, c, '/');
    SplitOnNoSep(c, '/');
  }

  lemma SplitSegments4(a: string, b: string, c: string, tail: string)
    requires '/' !in a && '/' !in b && '/' !in c
    ensures SplitOn(a + "/" + b + "/" + c + "/" + tail, '/') == [a, b, c] + SplitOn(tail, '/')
  {
    var t3 := c + ['/'] + tail;
    var t2 := b + ['/'] + t3;
    Regroup4(a, b, c, tail);
    SplitOnFirst(a, t2, '/');
    SplitOnFirst(b, t3, '/');
    SplitOnFirst(c, tail, '/');
    ConsThree(a, b, c, SplitOn(tail, '/'));
  }

  lemma ConsThree<T>(a: T, b: T, c: T, rest: seq<T>)
    ensures [a] + ([b] + ([c] + rest)) == [a, b, c] + rest
  {
  }

  lemma NoSlashEnds(a: string)
    requires a != "" && '/' !in a
    ensures a[0] != '/' && a[|a| - 1] != '/'
  {
    assert a[0] in a && a[|a| - 1] in a;
  }

  lemma ProfilesHasNoSlash()
    ensures "profiles" != "" && '/' !in "profiles" && "profiles"[0] != '/'
  {
  }

  /** `str(n)` never holds a slash. */
  lemma NoSlashInNumber(n: int)
    ensures IntToString(n) != "" && '/' !in IntToString(n)
  {
    var t := IntToString(n);
    forall i | 0 <= i < |t| ensures t[i] != '/' {
      assert t[i] in t;
    }
  }

  /** The result once the segments of the stripped path are known. */
  lemma SegmentsExtract(url: string, p: string, a: string, b: string, rest: seq<string>)
    requires SplitOn(StripSlashes(url), '/') == [p, a, b] + rest
    requires p == "profiles"
    ensures ExtractIdAndSlug(url) == (Some(a), Some(b))
  {
  }

  /**
   * A path `/profiles/<id>/<slug>` with a slash-free id and a non-empty
   * slash-free slug. The id is any such text, not only a number.
   */
  lemma ThreeSegments(id: string, slug: string)
    requires '/' !in id && slug != "" && '/' !in slug
    ensures ExtractIdAndSlug("/" + "profiles" + "/" + id + "/" + slug) == (Some(id), Some(slug))
  {
    ProfilesHasNoSlash();
    NoSlashEnds(slug);
    StripPath3("profiles", id, slug);
    SplitSegments3("profiles", id, slug);
    SegmentsExtract("/" + "profiles" + "/" + id + "/" + slug, "profiles", id, slug, []);
  }

  /** The same followed by more segments, the last one not ending in a slash. */
  lemma MoreSegments(id: string, slug: string, tail: string)
    requires '/' !in id && '/' !in slug
    requires tail != "" && tail[|tail| - 1] != '/'
    ensures ExtractIdAndSlug("/" + "profiles" + "/" + id + "/" + slug + "/" + tail) == (Some(id), Some(slug))
  {
    ProfilesHasNoSlash();
    StripPath4("profiles", id, slug, tail);
    SplitSegments4("profiles", id, slug, tail);
    SegmentsExtract("/" + "profiles" + "/" + id + "/" + slug + "/" + tail, "profiles", id, slug, SplitOn(tail, '/'));
  }

  /** Joining at least three segments: the first three, then the rest behind a separator. */
  lemma JoinThree(parts: seq<string>, sep: string)
    requires |parts| >= 3
    ensures Join(sep, parts)
      == parts[0] + sep + parts[1] + sep + parts[2] + (if |parts| == 3 then "" else sep + Join(sep, parts[3..]))
  {
    assert parts[1..][1..] == parts[2..];
    assert parts[2..][1..] == parts[3..];
    assert Join(sep, parts) == parts[0] + sep + Join(sep, parts[1..]);
    assert Join(sep, parts[1..]) == parts[1] + sep + Join(sep, parts[2..]);
    if |parts| == 3 {
      assert Join(sep, parts[2..]) == parts[2];
    } else {
      assert Join(sep, parts[2..]) == parts[2] + sep + Join(sep, parts[3..]);
    }
  }

  /** A text joined from at least three segments: the first three, then nothing or a slash and more. */
  lemma JoinedThree(s: string, parts: seq<string>)
    requires |parts| >= 3 && Join("/", parts) == s
    ensures exists rest :: s == parts[0] + "/" + parts[1] + "/" + parts[2] + rest && (rest == "" || rest[0] == '/')
  {
    JoinThree(parts, "/");
    var rest := if |parts| == 3 then "" else "/" + Join("/", parts[3..]);
    assert s == parts[0] + "/" + parts[1] + "/" + parts[2] + rest;
  }

  /** Success describes the stripped path: `profiles/`, the id, `/`, the slug, then nothing or more segments. */
  lemma ExtractIdAndSlugFound(url: string)
    ensures var r := ExtractIdAndSlug(url);
      r.0.Some? ==>
        && '/' !in r.0.value && '/' !in r.1.value
        && exists rest :: StripSlashes(url) == "profiles" + "/" + r.0.value + "/" + r.1.value + rest
                          && (rest == "" || rest[0] == '/')
  {
    var s := StripSlashes(url);
    var parts := SplitOn(s, '/');
    if |parts| >= 3 && parts[0] == "profiles" {
      JoinSplitOn(s, '/');
      JoinedThree(s, parts);
    }
  }

  /** The example in the source's comment. */
  lemma ExtractExample(url: string)
    requires url == "/profiles/1413/virat-kohli"
    ensures ExtractIdAndSlug(url) == (Some("1413"), Some("virat-kohli"))
  {
    assert '/' !in "1413" && '/' !in "virat-kohli";
    assert "/" + "profiles" + "/" + "1413" + "/" + "virat-kohli" == url;
    ThreeSegments("1413", "virat-kohli");
  }

  /** The profile path as a sequence of slash-separated pieces. */
  lemma ProfilePathPieces(id: int, slug: Option<string>)
    ensures HasSlug(slug) ==> ProfilePath(id, slug) == "/" + "profiles" + "/" + IntToString(id) + "/" + slug.value
    ensures !HasSlug(slug) ==> ProfilePath(id, slug) == "/" + "profiles" + "/" + IntToString(id)
  {
    assert "/" + "profiles" + "/" == "/profiles/";
  }

  /**
   * Round trip with the scraper's profile path: a path built from an id and
   * a non-empty slug without slashes gives back `str(id)` and the slug.
   */
  lemma ProfilePathRoundTrip(id: int, slug: string)
    requires slug != "" && '/' !in slug
    ensures ExtractIdAndSlug(ProfilePath(id, Some(slug))) == (Some(IntToString(id)), Some(slug))
  {
    NoSlashInNumber(id);
    ProfilePathPieces(id, Some(slug));
    ThreeSegments(IntToString(id), slug);
  }

  /** Segments after the slug are ignored. */
  lemma ExtraSegmentsIgnored(id: int, slug: string, tail: string)
    requires slug != "" && '/' !in slug
    requires tail != "" && tail[|tail| - 1] != '/'
    ensures ExtractIdAndSlug(ProfilePath(id, Some(slug)) + "/" + tail) == (Some(IntToString(id)), Some(slug))
  {
    NoSlashInNumber(id);
    ProfilePathPieces(id, Some(slug));
    MoreSegments(IntToString(id), slug, tail);
  }

  /** A profile path without a slug has only two segments, so nothing is extracted. */
  lemma NoSlugNotExtracted(id: int)
    ensures ExtractIdAndSlug(ProfilePath(id, None)) == (None, None)
  {
    var n := IntToString(id);
    NoSlashInNumber(id);
    NoSlashEnds(n);
    ProfilePathPieces(id, None);
    ProfilesHasNoSlash();
    StripPath2("profiles", n);
    SplitSegments2("profiles", n);
  }

  /** Leading and trailing slashes make no difference to the result. */
  lemma SlashesIgnored(url: string)
    ensures ExtractIdAndSlug("/" + url) == ExtractIdAndSlug(url)
    ensures ExtractIdAndSlug(url + "/") == ExtractIdAndSlug(url)
  {
    StripLeadingSlash(url);
    TrailingSlashIgnored(url);
  }

  // ---------------------------------------------------------------------
  // search_player_on_cricbuzz

  /** An anchor of the search page: its `href` and its stripped text. */
  datatype Link = Link(href: string, text: string)

  /** A kept result: the link text, the absolute URL and the relative path. */
  datatype PlayerLink = PlayerLink(name: string, fullUrl: string, relUrl: string)

  /** The search request; `None` stands for any request or parsing error. */
  type SearchFetcher = string -> Option<seq<Link>>

  const SearchBase := "https://www.cricbuzz.com/api/html/search?q="

  /** The search URL: the name with every space turned into `+`. */
  function SearchUrl(name: string): (u: string)
    ensures StartsWith(u, SearchBase) && ' ' !in u[|SearchBase|..]
  {
    ReplaceCharGone(name, ' ', "+");
    SearchBase + Replace(name, " ", "+")
  }

  /** Only paths that contain `/profiles/` and start with `/` are player links. */
  predicate IsPlayerLink(href: string) {
    Contains(href, "/profiles/") && StartsWith(href, "/")
  }

  /** The results the loop collects from the anchors, in page order. */
  function PlayerLinks(links: seq<Link>): seq<PlayerLink>
    decreases |links|
  {
    if |links| == 0 then []
    else
      var before := PlayerLinks(links[..|links| - 1]);
      var l := links[|links| - 1];
      if IsPlayerLink(l.href) then before + [PlayerLink(l.text, BaseUrl + l.href, l.href)] else before
  }

  /** `search_player_on_cricbuzz`: an error gives no results. */
  method SearchPlayer(fetch: SearchFetcher, name: string) returns (results: seq<PlayerLink>)
    ensures results == (match fetch(SearchUrl(name)) case None => [] case Some(links) => PlayerLinks(links))
  {
    var page := fetch(SearchUrl(name));
    if page.None? {
      return [];
    }
    var links := page.value;
    results := [];
    for i := 0 to |links|
      invariant results == PlayerLinks(links[..i])
    {
      assert links[..i + 1][..i] == links[..i];
      var href := links[i].href;
      if Contains(href, "/profiles/") && StartsWith(href, "/") {
        results := results + [PlayerLink(links[i].text, BaseUrl + href, href)];
      }
    }
    assert links[..|links|] == links;
  }

  /**
   * Every result is a player link whose URL is the base followed by the path,
   * and every player link on the page gives a result.
   */
  lemma {:induction false} PlayerLinksExact(links: seq<Link>)
    ensures var out := PlayerLinks(links);
      && |out| <= |links|
      && (forall r | r in out :: IsPlayerLink(r.relUrl) && r.fullUrl == BaseUrl + r.relUrl)
      && (forall l | l in links && IsPlayerLink(l.href) :: PlayerLink(l.text, BaseUrl + l.href, l.href) in out)
    decreases |links|
  {
    if |links| > 0 {
      var init := links[..|links| - 1];
      PlayerLinksExact(init);
      assert links == init + [links[|links| - 1]];
    }
  }

  /** The path the scraper builds for a profile passes the link filter. */
  lemma ProfilePathIsPlayerLink(id: int, slug: Option<string>)
    ensures IsPlayerLink(ProfilePath(id, slug))
  {
    var p := ProfilePath(id, slug);
    assert OccursAt(p, "/profiles/", 0);
  }
}
