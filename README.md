# IPL auction WhatsApp bot — a verified Dafny model

The bot answers WhatsApp questions about IPL cricket players. A message is
classified by keywords. The bot then tries a fixed list of SQL templates,
then SQL written by a language model behind a keyword safety gate, then a
semantic search over player texts, and finally a fixed guidance text. Player
data comes from Cricbuzz profile pages, which an ingestion script scrapes,
saves to PostgreSQL, caches in Redis and indexes in a vector store.

This project models the deterministic logic of that bot in Dafny and proves
what that logic promises. The module layout follows the program's files:

- `Strings` and `Values` (`strings.dfy`, `values.dfy`): the Python string
  operations the code relies on (`split`, `strip`, `lower`, `upper`,
  `title`, `replace`, `in`, `join`), `str(int)` and `int(str)`, `[:n]`
  slicing, JSON values and database rows.
- `Database` (`database.dfy`): the PostgreSQL driver as an oracle from SQL
  text to rows or an error, with a record of every statement executed.
- `KeywordRules`, `SqlTemplates`, `SimpleQueries`: the pattern router of
  `app/services/simple_queries.py`. The six templates are written out word
  by word, and each is proved to pass the safety gate of the text-to-SQL
  service and to end with its LIMIT clause.
- `TextToSql`: `app/services/text_to_sql.py`, with the safety gate,
  `_clean_sql`, the model choice, `generate_sql`, `execute_query` and
  `natural_language_to_data`.
- `RedisCache`: `app/services/redis_cache.py`, with Redis as a `Cache`
  class holding a map from key to (value, expiry), a clock and a flag for
  whether the server answers.
- `AiResponse`: `app/services/ai_response.py`, with the intent classifier,
  the formatters with their row and entry limits, and the model-written
  fallback with its length caps.
- `Handler`: `app/whatsapp/handler.py`, with the dispatch by intent, the
  fallback chains and the player-name heuristics.
- `Valuation`: `app/services/valuation.py`, with the weighted score over
  exact reals, the role tables, the key stats and `compare_players`. The
  international status (0.8 for India) and the constant recent form of 0.5
  are definitions used by the score.
- `Scraper`: the post-processing of a Cricbuzz profile page in
  `app/scrapers/cricbuzz_scraper.py`. The page is reduced to the texts the
  scraper reads from it.
- `FindPlayerUrl`: `scripts/find_player_url.py`, with the player-link
  filter and `extract_id_and_slug`.
- `VectorStore`: `app/services/vector_store.py`, with the player text, the
  payload, the search-result rows and the bulk loader's counter. The
  Qdrant collection is a class over a map of points.
- `Ingest`: `scripts/scrape_players.py`, with the per-(player, format)
  stats upsert over tables held as maps by a `Database` class, the scraping
  loop with its counters, the custom player-list reader and the menu.

Every collaborator the code calls out to is a parameter or a
function-valued constant of the model:

- the Gemini models;
- the database driver;
- Redis's answers and its clock;
- Python's `hash`;
- the vector store's upsert and search;
- the HTTP fetch of a page;
- `_safe_float` and float formatting.

Python floats are exact reals. Integers are unbounded, as in Python.

## Model

| member | source | states |
|---|---|---|
| `Strings.SplitJoin` | app/whatsapp/handler.py:273 | `split()` of words joined by single spaces gives back the words |
| `Strings.SplitWordsAvoid` | app/whatsapp/handler.py:273 | a text that does not contain a pattern splits into words none of which contains it |
| `Strings.SingleSpacedIsJoin` | app/services/text_to_sql.py:185 | a single-spaced text is the single-space join of its own `split()` |
| `Strings.StripIsSlice` | scripts/scrape_players.py:160 | `strip()` keeps a contiguous part of its input |
| `Strings.StripNoSpace` | scripts/scrape_players.py:160 | a text without whitespace at either end is left as it is by `strip()` |
| `Strings.JoinSplitOn` | app/whatsapp/handler.py:303 | joining the pieces of `split(sep)` with `sep` gives back the text |
| `Strings.SplitOnJoin` | scripts/scrape_players.py:168 | `split(sep)` of pieces free of `sep` joined by it gives back the pieces |
| `Strings.ToLowerIdempotent` | app/services/simple_queries.py:21 | lower-casing twice is lower-casing once |
| `Strings.TitleStable` | app/whatsapp/handler.py:279 | `title()` is stable under another `title()` and forgets an earlier `lower()` |
| `Strings.LettersSpec` | app/whatsapp/handler.py:290 | the letters of a text of letters are the text, and no letter is dropped |
| `Strings.ReplaceAbsent` | app/whatsapp/handler.py:303 | `replace` leaves a text without the pattern as it is |
| `Values.NatToStringInjective` | app/services/redis_cache.py:53 | different numbers have different decimal texts |
| `Values.ParsePrinted` | scripts/scrape_players.py:168 | `int(str(n)) == n` |
| `Values.Take` | app/services/ai_response.py:130 | `s[:n]` keeps the first n items, or drops -n from the end for negative n |
| `KeywordRules.FirstMatchSpec` | app/services/simple_queries.py:19-47 | a first-match result is the pattern of a rule that holds with no earlier rule holding; None only when no rule holds |
| `KeywordRules.AnyInOne` | app/services/simple_queries.py:32-41 | `any(w in s for w in [k])` is `k in s` |
| `KeywordRules.HoldsOne` | app/services/simple_queries.py:36-45 | a one-group rule holds exactly when one of its words occurs |
| `KeywordRules.HoldsTwo` | app/services/simple_queries.py:24-33 | a two-group rule holds exactly when a word of each group occurs |
| `SimpleQueries.MatchQuery` | app/services/simple_queries.py:19-47 | a matched pattern is always one of the six keys of `sql_map` |
| `SimpleQueries.MatchIgnoresCase` | app/services/simple_queries.py:21 | the question is lower-cased first, so lower- or upper-casing it never changes the match |
| `SimpleQueries.MatchQueryFollowsRules` | app/services/simple_queries.py:19-47 | `match_query` equals the ordered six-rule first-match list applied to the lower-cased question |
| `SimpleQueries.StrikeRateQuestionGoesToBatsmen` | app/services/simple_queries.py:24-33 | "best strike rate batsmen" is routed to top_batsmen because that rule is tried before best_strike_rate |
| `SimpleQueries.TemplateOf` | app/services/simple_queries.py:51-98 | a template exists exactly for the six pattern names |
| `SimpleQueries.MatchedPatternHasSql` | app/services/simple_queries.py:100-102 | a pattern returned by `match_query` always has SQL, so the "no SQL" branch is never reached from it |
| `SimpleQueries.TemplatesPassGate` | app/services/simple_queries.py:51-98 | every predefined template passes the `_is_safe_query` gate of the text-to-SQL service |
| `SimpleQueries.TemplateLimits` | app/services/simple_queries.py:58-96 | every template ends with `LIMIT 5`, `LIMIT 10` or `LIMIT 20` and its closing indentation |
| `SimpleQueries.TemplateRunKeepsSafe` | app/services/simple_queries.py:105-107 | running a template after gated queries leaves only gated queries run |
| `SimpleQueries.ExecuteQuery` | app/services/simple_queries.py:49-119 | unknown pattern: None and nothing executed; otherwise the template is executed once, None iff the driver fails, else success with the rows and their count; everything executed stays gated |
| `SqlTemplates.TextFree` | app/services/simple_queries.py:51-98 | a template made of keyword-free words contains no forbidden keyword, even across line breaks |
| `SqlTemplates.TextStartsWithSelect` | app/services/simple_queries.py:51-98 | a template, stripped and upper-cased, starts with the SELECT of its first line |
| `SqlTemplates.TextSafe` | app/services/text_to_sql.py:193-206 | a keyword-free template that starts with SELECT passes the gate |
| `SqlTemplates.TextEndsWithLimit` | app/services/simple_queries.py:58-96 | a template's text ends with its LIMIT line and the closing indentation |
| `Database.Db.Execute` | app/services/simple_queries.py:105-107 | executing a statement records it and returns what the database yields for it (None when the driver raises) |
| `TextToSql.ForbiddenRejected` | app/services/text_to_sql.py:195-200 | a query whose upper-cased text contains any forbidden keyword is refused |
| `TextToSql.SafeStartsWithSelect` | app/services/text_to_sql.py:202-204 | an accepted query, upper-cased and stripped, begins with SELECT |
| `TextToSql.SafetyIgnoresCase` | app/services/text_to_sql.py:195 | lower-casing a query never changes the gate's verdict |
| `TextToSql.LeadingSpaceIgnored` | app/services/text_to_sql.py:193-206 | whitespace in front of a query never changes the verdict |
| `TextToSql.TimestampColumnsRejected` | app/services/text_to_sql.py:17 | any query naming `created_at` or `updated_at` is refused, since they contain CREATE and UPDATE |
| `TextToSql.JoinNoForbidden` | app/services/text_to_sql.py:185 | keyword-free words joined by a letter-free separator stay keyword-free |
| `TextToSql.NoFenceLeft` | app/services/text_to_sql.py:182 | after the plain-fence pass no triple backtick remains |
| `TextToSql.CleanSqlShape` | app/services/text_to_sql.py:178-191 | `_clean_sql` always yields a single-spaced text without fences that ends with `;` |
| `TextToSql.CleanSqlFixpoint` | app/services/text_to_sql.py:178-191 | an already clean query comes back unchanged |
| `TextToSql.CleanSqlIdempotent` | app/services/text_to_sql.py:178-191 | cleaning twice is cleaning once |
| `TextToSql.ModelCandidates` | app/services/text_to_sql.py:111-112 | four candidates: the configured model, its `-latest` variant, gemini-pro, text-bison@001 |
| `TextToSql.PickModel` | app/services/text_to_sql.py:113-123 | the chosen model is the first non-empty candidate that loads; None only when every candidate is empty or fails |
| `TextToSql.CachedSql` | app/services/text_to_sql.py:129-132 | a cached value counts as a hit exactly when it is a non-empty text, and the hit is that text |
| `TextToSql.StoreSafeSql` | app/services/text_to_sql.py:165-170 | storing a gated query keeps every `sql:` entry of the cache safe |
| `TextToSql.StoreKeepsSafe` | app/services/text_to_sql.py:165-170 | whether or not the cache took the write, storing a gated query keeps every `sql:` entry safe |
| `TextToSql.StoreOtherKeepsSafe` | app/services/redis_cache.py:71-80 | storing a value that is not a text, such as a search counter, keeps every `sql:` entry safe |
| `TextToSql.ReplySqlShape` | app/services/text_to_sql.py:158-167 | whatever the model replies, a returned query passes the gate, is single-spaced, non-empty, fence-free and ends with `;` |
| `TextToSql.ReplySqlStable` | app/services/text_to_sql.py:158-167 | a cleaned and gated reply goes through the same path unchanged |
| `TextToSql.Service.constructor` | app/services/text_to_sql.py:109-123 | the service's model is a loading candidate, or None when none loads |
| `TextToSql.Service.StoreSql` | app/services/text_to_sql.py:170 | with the cache up, the query is stored under `sql:{question}` for an hour and read back as itself; no other key changes |
| `TextToSql.Service.GeneratedIsSafe` | app/services/text_to_sql.py:153-176 | every query the model path returns passes the gate and is cleaned |
| `TextToSql.Service.GenerateSql` | app/services/text_to_sql.py:125-176 | as written: a hit on `query:{hash("sql:"+q)}` is returned unchanged; otherwise the model path's result, stored under `sql:{q}`; the key looked up is never written |
| `TextToSql.Service.GenerateSqlFixed` | app/services/text_to_sql.py:125-176 | with the lookup on `sql:{q}`: a stored query is what the next call finds; a returned query is safe while the cache holds only safe queries |
| `TextToSql.Service.ExecuteQuery` | app/services/text_to_sql.py:208-226 | an unsafe query gives None and reaches no database; a safe one is executed once and its rows returned |
| `TextToSql.Service.AnswerShapes` | app/services/text_to_sql.py:228-252 | an answer is either "could not generate" without SQL, "execution failed" with the SQL, or success with the rows the database gives for that SQL and their count |
| `TextToSql.Service.AnswerSafe` | app/services/text_to_sql.py:228-252 | as written: rows only ever come from a query that passed the gate, and when the lookup finds no text the query named is the model's, which passed it too |
| `TextToSql.Service.AnswerFromSafe` | app/services/text_to_sql.py:228-252 | for whatever the lookup found: a successful answer ran a gated query, and without a hit any query named is gated |
| `TextToSql.Service.AnswerFixedSafe` | app/services/text_to_sql.py:228-252 | with the lookup on `sql:{q}` and only gated text under `sql:` keys, every query an answer names passed the gate |
| `TextToSql.Service.NaturalLanguageToData` | app/services/text_to_sql.py:125-252 | as written: the answer read off the state before the call, whose lookup is `query:{hash("sql:"+q)}`; only the `sql:` key of the question may change; the cache stays safe and the database only ever runs gated queries |
| `TextToSql.Service.NaturalLanguageToDataFixed` | app/services/text_to_sql.py:125-252 | with the lookup on `sql:{q}`: the answer read off the state before the call; a query it names is what the next call for the question finds while the cache is up; only that key changes; cache and database stay safe |
| `TextToSql.StoredSqlNeverFound` | app/services/text_to_sql.py:129 | for every question and every hash value, `query:{hash}` differs from `sql:{question}` |
| `RedisCache.EffectiveTtl` | app/services/redis_cache.py:34 | a missing or zero ttl means the one-hour default; any other ttl is kept |
| `RedisCache.NamespacesDisjoint` | app/services/redis_cache.py:53-73 | `player:`, `query:`, `search_count:` and the `sql:` keys of the text-to-SQL service never collide |
| `RedisCache.PlayerKeyInjective` | app/services/redis_cache.py:53 | different player ids have different cache keys |
| `RedisCache.QueryKeyIsNotQuery` | app/services/redis_cache.py:63-68 | a query's hashed key differs from any query text not starting with `query:` |
| `RedisCache.SearchKeyIgnoresCase` | app/services/redis_cache.py:73 | search counters are per lower-cased name |
| `RedisCache.NameOfSearchKey` | app/services/redis_cache.py:91 | removing the prefix from a counter key gives back the lower-cased name |
| `RedisCache.OnePlayerChanged` | app/services/redis_cache.py:51-54 | a change confined to one `player:{id}` key leaves every key outside the `player:` namespace as it was |
| `RedisCache.InsertDesc` | app/services/redis_cache.py:95 | inserting one pair adds exactly that pair |
| `RedisCache.InsertKeepsOrder` | app/services/redis_cache.py:95 | inserting into a list sorted by count, non-increasing, keeps it sorted |
| `RedisCache.SortDesc` | app/services/redis_cache.py:95 | the sort by count, reversed, is a permutation sorted non-increasingly |
| `RedisCache.TakeSorted` | app/services/redis_cache.py:96 | `[:limit]` of a sorted list is sorted and every pair left out counts no more than the last one kept |
| `RedisCache.Cache.constructor` | app/services/redis_cache.py:11-18 | a fresh cache is empty |
| `RedisCache.Cache.Tick` | app/services/redis_cache.py:36 | time passing keeps the store; every entry whose expiry is reached reads as None |
| `RedisCache.Cache.Get` | app/services/redis_cache.py:20-29 | a value is returned exactly when the server is reachable and the key is live, and it is the stored one |
| `RedisCache.Cache.Set` | app/services/redis_cache.py:31-40 | True exactly when reachable with a positive effective ttl; then the key holds the value until now+ttl and reads back as it; otherwise nothing changes |
| `RedisCache.Cache.Delete` | app/services/redis_cache.py:42-49 | True exactly when reachable; then the key is gone; otherwise nothing changes |
| `RedisCache.Cache.CachePlayer` | app/services/redis_cache.py:51-54 | stores the player's data under `player:{id}` with the given ttl, read back by `get_player` |
| `RedisCache.Cache.GetPlayer` | app/services/redis_cache.py:56-59 | reads the key `player:{id}` |
| `RedisCache.Cache.CacheQueryResult` | app/services/redis_cache.py:61-64 | stores the result under `query:{hash(query)}`, read back by `get_query_result` |
| `RedisCache.Cache.GetQueryResult` | app/services/redis_cache.py:66-69 | reads the key `query:{hash(query)}` |
| `RedisCache.Cache.IncrementSearch` | app/services/redis_cache.py:71-80 | reachable and integer (or absent, read as 0): the counter becomes one more and lives thirty days, which is returned; otherwise 0 and nothing changes |
| `RedisCache.Cache.SearchKeys` | app/services/redis_cache.py:85-86 | the keys listed are live counters |
| `RedisCache.Cache.CollectCounts` | app/services/redis_cache.py:86-92 | the pairs, in order, of a listing that names each live counter exactly once; fails exactly when some counter is not an integer |
| `RedisCache.Cache.GetPopularPlayers` | app/services/redis_cache.py:82-99 | unreachable or unreadable: []; otherwise `[:limit]` of `SortDesc` over the pairs of a listing that names each live counter once, so each counter is reported at most once; the result is sorted by count non-increasing, every pair is a live counter's, and none left out counts more than the last kept |
| `RedisCache.Cache.PopularFromCounters` | app/services/redis_cache.py:94-96 | the cut of the sorted pairs has the slice's length, is sorted, holds only live counters' pairs and leaves out none counting more than the last kept |
| `AiResponse.DetectIntent` | app/services/ai_response.py:186-211 | the intent is one of the six names and its type is the one the source pairs with it (search, analysis or query) |
| `AiResponse.DetectIntentFollowsRules` | app/services/ai_response.py:186-211 | the intent is the first of the five keyword groups, in their order, that occurs in the lower-cased message, else general_query |
| `AiResponse.DetectIgnoresCase` | app/services/ai_response.py:188 | lower- or upper-casing the message never changes the intent |
| `AiResponse.NoKeywordIsGeneral` | app/services/ai_response.py:210-211 | a message with no keyword of any group is a general query |
| `AiResponse.CompareStatsIsPlayerStats` | app/services/ai_response.py:191-200 | "compare stats" is player_stats, since the stats group is tried before the comparison group |
| `AiResponse.StripKeepsMarker` | app/services/ai_response.py:70 | stripping a text that opens with a non-space marker keeps the marker in front |
| `AiResponse.Framed` | app/services/ai_response.py:116 | a text framed by non-space ends is its own strip |
| `AiResponse.FirstIpl` | app/services/ai_response.py:51 | the row found is an IPL row of the list; None exactly when the list has no IPL row |
| `AiResponse.FirstIplIsFirst` | app/services/ai_response.py:51 | when row i is an IPL row, the row found is an IPL row at or before i with no IPL row before it |
| `AiResponse.IplRowTruthy` | app/services/ai_response.py:52 | an IPL row is a non-empty dict, so the `if ipl_batting` test passes whenever one is found |
| `AiResponse.BattingBlock` | app/services/ai_response.py:53-58 | the IPL batting block always has text |
| `AiResponse.BowlingBlock` | app/services/ai_response.py:64-68 | the IPL bowling block always has text |
| `AiResponse.BattingPart` | app/services/ai_response.py:50-58 | the batting block is shown exactly when the player has an IPL batting row, and it is that row's block |
| `AiResponse.BowlingPart` | app/services/ai_response.py:61-68 | the bowling block is shown exactly when there is an IPL bowling row with a positive wicket count, and it is that row's block |
| `AiResponse.PlayerStatsMarked` | app/services/ai_response.py:42-70 | the stats reply opens with its chart mark |
| `AiResponse.KeyStatsBlock` | app/services/ai_response.py:84-93 | the key-stats block is empty exactly when `key_stats` is falsy |
| `AiResponse.ValuationMarked` | app/services/ai_response.py:72-95 | the valuation reply opens with its money mark |
| `AiResponse.Numbered` | app/services/ai_response.py:101 | one entry per element |
| `AiResponse.NumberedAt` | app/services/ai_response.py:101 | entry k is the element k rendered with number k+1 (`enumerate(..., 1)`) |
| `AiResponse.Listed` | app/services/ai_response.py:101 | numbering `xs[:n]` gives min(len, n) entries, entry k numbered k+1 |
| `AiResponse.AppendAll` | app/services/ai_response.py:101-114 | the loop of `+=` appends every part in order |
| `AiResponse.FormatComparison` | app/services/ai_response.py:97-116 | returns the comparison text |
| `AiResponse.ComparisonListing` | app/services/ai_response.py:97-116 | the comparison reply opens with its mark and lists at most five players, entry k for player k numbered k+1 |
| `AiResponse.FormatSimilarPlayers` | app/services/ai_response.py:146-158 | returns the similar-players text |
| `AiResponse.SimilarListing` | app/services/ai_response.py:146-158 | "No similar players" exactly for an empty list; otherwise the search mark then at most five numbered entries, in order |
| `AiResponse.FieldsStep` | app/services/ai_response.py:133-138 | adding one field's text extends the row piece by that field |
| `AiResponse.RowLines` | app/services/ai_response.py:130-139 | one line per row |
| `AiResponse.RowLinesAt` | app/services/ai_response.py:130-139 | line k is row k's line numbered k+1 |
| `AiResponse.RowLineNumbered` | app/services/ai_response.py:131 | every row line starts with its number and a dot |
| `AiResponse.MoreNote` | app/services/ai_response.py:141-142 | the "more results" note appears exactly when more than ten rows came back |
| `AiResponse.RowPieces` | app/services/ai_response.py:131-138 | the row piece is the number, a dot, and the texts of the non-null fields |
| `AiResponse.RowStep` | app/services/ai_response.py:139 | right-stripping ` \|` and adding a newline closes one more row line |
| `AiResponse.AppendRows` | app/services/ai_response.py:130-139 | the row loop appends exactly the row lines |
| `AiResponse.FormatQueryResult` | app/services/ai_response.py:118-144 | returns the query-result text |
| `AiResponse.QueryResultListing` | app/services/ai_response.py:118-125 | a failed result gives the apology, an empty data list "No results", anything else the results listing |
| `AiResponse.ResultsListing` | app/services/ai_response.py:127-144 | the listing opens with the chart mark, shows at most ten numbered rows in order and ends with the note when more than ten came back |
| `AiResponse.InitModel` | app/services/ai_response.py:11-19 | the flash-latest model when it loads, else gemini-pro when it loads, else None |
| `AiResponse.DynamicResponse` | app/services/ai_response.py:160-184 | at most 500 characters: a model reply is stripped and cut to 500; without a model or on an error, the found prefix followed by the first 300 characters of the data's text (all of it when shorter) |
| `AiResponse.FormatWhatsappResponse` | app/services/ai_response.py:21-40 | returns the text of the formatter the response type selects |
| `AiResponse.DispatchStats` | app/services/ai_response.py:29-30 | player_stats goes to the stats formatter |
| `AiResponse.DispatchValuation` | app/services/ai_response.py:31-32 | valuation goes to the valuation formatter |
| `AiResponse.DispatchComparison` | app/services/ai_response.py:33-34 | comparison goes to the comparison formatter |
| `AiResponse.DispatchQueryResult` | app/services/ai_response.py:35-36 | query_result goes to the query-result formatter |
| `AiResponse.DispatchSimilar` | app/services/ai_response.py:37-38 | similar_players goes to the similar-players formatter |
| `Handler.Bullets` | app/whatsapp/handler.py:88-89 | one suggestion line per search hit |
| `Handler.FirstContainedSpec` | app/whatsapp/handler.py:277-279 | the first word of the list that occurs in the text, with no earlier word occurring; None exactly when none occurs |
| `Handler.FindFirst` | app/whatsapp/handler.py:277-279 | the loop returns that first occurring word |
| `Handler.IsOneOfIsIn` | app/whatsapp/handler.py:285 | the stop-word test is list membership |
| `Handler.FindName` | app/whatsapp/handler.py:259-298 | the loops of `_extract_player_name` compute the name the specification function gives |
| `Handler.ExtractPlayerName` | app/whatsapp/handler.py:259-298 | the same with the source's stop words and its five known players |
| `Handler.NamePartsAppend` | app/whatsapp/handler.py:283-292 | collecting name parts distributes over concatenated word lists |
| `Handler.NamePartsOrigin` | app/whatsapp/handler.py:283-292 | every name part is the letters (more than two, all letters) of a capitalised word of the message that is not a stop word; none exactly when no word yields one |
| `Handler.PartsAreWords` | app/whatsapp/handler.py:290-291 | name parts hold no whitespace |
| `Handler.NameShape` | app/whatsapp/handler.py:275-298 | a known player found in the lower-cased message is returned title-cased; otherwise the name is the first one to three parts joined by spaces, and it splits back into them; None exactly when no word yields a part |
| `Handler.KnownNameIgnoresCase` | app/whatsapp/handler.py:277-279 | a known player's returned name is, ignoring case, the known name |
| `Handler.PlayerPieces` | app/whatsapp/handler.py:303 | splitting on `\|` always gives at least one piece |
| `Handler.FindNames` | app/whatsapp/handler.py:305-311 | the loop keeps the names found in the pieces, in order |
| `Handler.ExtractMultiplePlayers` | app/whatsapp/handler.py:300-311 | the names found in the pieces of the message split on " and ", " vs " and "," |
| `Handler.NamesOfPieces` | app/whatsapp/handler.py:305-311 | at most one name per piece, every name comes from a piece, and names of a prefix of the pieces are a prefix of the names |
| `Handler.PiecesRejoin` | app/whatsapp/handler.py:303 | the pieces joined by `\|` are the message with the three separators replaced, and no piece contains `\|` |
| `Handler.FoundIds` | app/whatsapp/handler.py:148-152 | at most one id per name |
| `Handler.GemRoleOrder` | app/whatsapp/handler.py:168-172 | the role asked for is the first of batsman, bowler, all-rounder, wicket-keeper occurring in the lower-cased message; none exactly when none occurs |
| `Handler.QueryTextOpeners` | app/services/ai_response.py:118-144 | a query-result reply opens with the apology mark, is "No results", or opens with the chart mark |
| `Handler.OpenersNotApology` | app/whatsapp/handler.py:215 | no query-result reply is the ranking apology |
| `Handler.OpenersNotGuidance` | app/whatsapp/handler.py:257 | no query-result or similar-players reply is the guidance text |
| `Handler.WhatsAppHandler.constructor` | app/whatsapp/handler.py:6-34 | the handler is built over the services that imported (each possibly missing), the text-to-SQL service sharing its cache and database |
| `Handler.WhatsAppHandler.RankingApologyWhen` | app/whatsapp/handler.py:187-215 | the ranking apology is sent exactly when the router gives no successful result and there is no text-to-SQL service |
| `Handler.WhatsAppHandler.GuidanceWhen` | app/whatsapp/handler.py:217-257 | the guidance text is sent exactly when the router fails, the as-written text-to-SQL answer does not succeed and the vector search is missing or empty |
| `Handler.WhatsAppHandler.ProcessMessage` | app/whatsapp/handler.py:42-67 | the unavailable text without the AI service, else the reply of the handler the detected intent selects, read off the state before the call with the as-written text-to-SQL lookup; only the message's SQL entry and its player's search counter may change; the cache and the database stay safe |
| `Handler.WhatsAppHandler.HandlePlayerStats` | app/whatsapp/handler.py:69-107 | no name: the request for one; else the counter is bumped and the stats text, the stats fallback when it is shorter than ten characters, the suggestions or "not found" |
| `Handler.WhatsAppHandler.StatsOfName` | app/whatsapp/handler.py:74-107 | the same once the name is known; only that name's counter may change |
| `Handler.WhatsAppHandler.ReplyStats` | app/whatsapp/handler.py:81-107 | the stats, suggestions or not-found reply for a found name |
| `Handler.WhatsAppHandler.HandleValuation` | app/whatsapp/handler.py:109-137 | no name, name not found, no valuation, or the valuation text, in that order |
| `Handler.WhatsAppHandler.ValueOfName` | app/whatsapp/handler.py:113-137 | the same once the name is known |
| `Handler.WhatsAppHandler.CollectIds` | app/whatsapp/handler.py:148-152 | the ids of the names found in the database, in order |
| `Handler.WhatsAppHandler.HandleComparison` | app/whatsapp/handler.py:139-163 | fewer than two names or fewer than two found gives its message; otherwise the comparison of the valuations |
| `Handler.WhatsAppHandler.HandleHiddenGems` | app/whatsapp/handler.py:165-185 | the vector search for the role's gem query; "no hidden gems" when it comes back empty |
| `Handler.WhatsAppHandler.TryRouter` | app/whatsapp/handler.py:190-202 | the router's result for a matched pattern whose query the database answers; the database runs only gated queries |
| `Handler.WhatsAppHandler.HandleRanking` | app/whatsapp/handler.py:187-215 | the router's rows when it succeeds, else the as-written text-to-SQL answer whatever it is, else the apology; only the message's cache entries change |
| `Handler.WhatsAppHandler.HandleGeneralQuery` | app/whatsapp/handler.py:217-257 | the router's rows, else a successful as-written text-to-SQL answer, else the similar players when there are any, else the guidance text; only the message's cache entries change |
| `Handler.WhatsAppHandler.SqlAnswer` | app/whatsapp/handler.py:208 | the as-written `natural_language_to_data` answer, read off the state before the call, changing only the message's cache entries |
| `Valuation.BasePriceRange` | app/services/valuation.py:10-15 | base prices lie between 2.0 and 3.0 crore, and an unknown role gets 2.0 |
| `Valuation.ScarcityRange` | app/services/valuation.py:250-258 | scarcity lies between 0.3 and 1.0, and an unknown role gets 0.5 |
| `Valuation.ImpactsNeedFiveMatches` | app/services/valuation.py:111-114 | no IPL row, or fewer than five matches, gives a zero batting and a zero bowling impact |
| `Valuation.BattingImpactBounds` | app/services/valuation.py:111-131 | for non-negative figures the batting impact lies in [0, 1] |
| `Valuation.BowlingImpactBounds` | app/services/valuation.py:133-154 | for non-negative figures the bowling impact lies in [0, 1.6) |
| `Valuation.BowlingImpactCanExceedOne` | app/services/valuation.py:138-152 | an economy of 2 makes the economy score 2.0, so a bowling impact of 1.4 is reached |
| `Valuation.FirstIplBattingSpec` | app/services/valuation.py:42-54 | the batting row kept is the first IPL row; None exactly when there is none |
| `Valuation.FirstIplBowlingSpec` | app/services/valuation.py:56-65 | the bowling row kept is the first IPL row; None exactly when there is none |
| `Valuation.FindIplBatting` | app/services/valuation.py:42-54 | the loop with its break returns that first IPL batting row |
| `Valuation.FindIplBowling` | app/services/valuation.py:56-65 | the loop with its break returns that first IPL bowling row |
| `Valuation.KeyStatsPresence` | app/services/valuation.py:167-185 | the batting keys appear exactly when the batting row has a match, the bowling ones likewise, and the dict is empty exactly when neither has |
| `Valuation.PriceCapped` | app/services/valuation.py:84-88 | the price is the base price grown by the total score, capped at 20 crore, and never below the base for a non-negative total |
| `Valuation.ValuatePriceBounds` | app/services/valuation.py:67-88 | for non-negative stats the estimate lies between the role's base price and the cap, and its total score is non-negative |
| `Valuation.CalculateValuation` | app/services/valuation.py:26-109 | None for an unknown id; otherwise the valuation of that player, under the cap |
| `Valuation.Found` | app/services/valuation.py:300-304 | at most one estimate per id |
| `Valuation.Insert` | app/services/valuation.py:307 | inserting one estimate adds exactly it |
| `Valuation.SortByPrice` | app/services/valuation.py:307 | the sort is a permutation |
| `Valuation.InsertBelow` | app/services/valuation.py:307 | inserting keeps every price under a common bound |
| `Valuation.InsertSorted` | app/services/valuation.py:307 | inserting into a list sorted by price, dearest first, keeps it sorted |
| `Valuation.SortByPriceSorted` | app/services/valuation.py:307 | the result is sorted by price, dearest first, and a permutation of its input |
| `Valuation.FoundSpec` | app/services/valuation.py:300-304 | every estimate is the valuation of one of the ids; no known id gives []; all known gives one per id |
| `Valuation.ComparePlayers` | app/services/valuation.py:298-308 | the valuations of the known ids, sorted by price, dearest first, a permutation of them, at most one per id |
| `Scraper.ProfilePath` | app/scrapers/cricbuzz_scraper.py:36-39 | the path always starts with `/profiles/` |
| `Scraper.ProfileUrl` | app/scrapers/cricbuzz_scraper.py:36-39 | the URL is the base URL followed by the profile path, with the slug only when one is given |
| `Scraper.SafeIntNonNegative` | app/scrapers/cricbuzz_scraper.py:227-233 | `_safe_int` never returns a negative number, since every `-` becomes `0` |
| `Scraper.SafeIntOfNat` | app/scrapers/cricbuzz_scraper.py:227-233 | a printed natural number reads back as itself |
| `Scraper.SafeIntOfNegative` | app/scrapers/cricbuzz_scraper.py:231 | a printed negative number reads back as its absolute value |
| `Scraper.SafeIntOfPrinted` | app/scrapers/cricbuzz_scraper.py:227-233 | a printed integer reads back as its absolute value |
| `Scraper.SafeIntIgnoresComma` | app/scrapers/cricbuzz_scraper.py:231 | a comma anywhere in the text is ignored |
| `Scraper.SafeIntDropsCommas` | app/scrapers/cricbuzz_scraper.py:231 | "1,234" reads as 1234 |
| `Scraper.SafeIntDash` | app/scrapers/cricbuzz_scraper.py:231 | a dash for a missing figure reads as 0 |
| `Scraper.SafeIntDashDigits` | app/scrapers/cricbuzz_scraper.py:231 | "-12" reads as 12 |
| `Scraper.SafeIntText` | app/scrapers/cricbuzz_scraper.py:232-233 | text that `int()` refuses reads as 0 |
| `Scraper.SplitFirst` | app/scrapers/cricbuzz_scraper.py:105 | `split(':', 1)` gives the part before the first separator and the rest, rejoined by it |
| `Scraper.InfoBio` | app/scrapers/cricbuzz_scraper.py:102-119 | reading the info rows never drops a key already set |
| `Scraper.InfoBioStep` | app/scrapers/cricbuzz_scraper.py:102-119 | one more row sets the entry it yields, or changes nothing |
| `Scraper.InfoStage` | app/scrapers/cricbuzz_scraper.py:79-119 | after the name step and the info rows the bio has a name |
| `Scraper.RoleStage` | app/scrapers/cricbuzz_scraper.py:121-133 | after the role search the bio still has a name |
| `Scraper.WithDefault` | app/scrapers/cricbuzz_scraper.py:135-143 | a default sets the key when missing and keeps every key already set |
| `Scraper.NameBio` | app/scrapers/cricbuzz_scraper.py:79-95 | the name step gives a bio holding only the page's name |
| `Scraper.ReadInfoRows` | app/scrapers/cricbuzz_scraper.py:100-119 | the loop over the info rows computes the info stage |
| `Scraper.ExtractBio` | app/scrapers/cricbuzz_scraper.py:75-145 | `_extract_bio` computes the bio of the page |
| `Scraper.Body` | app/scrapers/cricbuzz_scraper.py:161 | `rows[1:]` is every row after the header |
| `Scraper.KeptStep` | app/scrapers/cricbuzz_scraper.py:162-181 | one more row is kept, parsed, exactly when it has enough cells |
| `Scraper.ParseBattingStats` | app/scrapers/cricbuzz_scraper.py:147-186 | the batting loop computes the batting table: no table gives [], else each body row with at least eight cells, parsed |
| `Scraper.ParseBowlingStats` | app/scrapers/cricbuzz_scraper.py:188-225 | the bowling loop computes the bowling table: each body row with at least seven cells, parsed |
| `Scraper.ExtractPlayerDetails` | app/scrapers/cricbuzz_scraper.py:33-73 | None when the page cannot be fetched, else the id, the URL, the bio and both tables |
| `Scraper.InfoEntryNotName` | app/scrapers/cricbuzz_scraper.py:109-119 | no info row sets the name |
| `Scraper.InfoKeepsName` | app/scrapers/cricbuzz_scraper.py:102-119 | reading the info rows keeps the name |
| `Scraper.InfoLastWins` | app/scrapers/cricbuzz_scraper.py:102-119 | the last row that sets a key decides its value |
| `Scraper.InfoUntouched` | app/scrapers/cricbuzz_scraper.py:102-119 | a key no row sets keeps its presence and value |
| `Scraper.BioHasAllFields` | app/scrapers/cricbuzz_scraper.py:135-143 | the bio always holds name, country, role, batting style and bowling style |
| `Scraper.BioNameKept` | app/scrapers/cricbuzz_scraper.py:79-95 | the bio's name is the page's name, never empty |
| `Scraper.BioDefaults` | app/scrapers/cricbuzz_scraper.py:121-143 | country and the styles are the info rows' values or Unknown; role is the info row's, else the page-text role, else Unknown |
| `Scraper.BioNameSources` | app/scrapers/cricbuzz_scraper.py:79-95 | the name is the styled heading, else the first heading, else the title before its first bar, else "Unknown Player" |
| `Scraper.InfoRowParts` | app/scrapers/cricbuzz_scraper.py:105-107 | a row `k:v` gives the entry for the lower-cased stripped key and the stripped value |
| `Scraper.NoColonRow` | app/scrapers/cricbuzz_scraper.py:104 | a row without a colon sets nothing |
| `Scraper.SplitOnLast` | app/scrapers/cricbuzz_scraper.py:111-113 | a value with a comma splits into at least two parts, the last being what follows the last comma |
| `Scraper.BirthRowCountry` | app/scrapers/cricbuzz_scraper.py:109-113 | a birth row with a comma sets the country to the stripped text after the last comma |
| `Scraper.BirthRowNoComma` | app/scrapers/cricbuzz_scraper.py:111-113 | a birth row without a comma sets nothing |
| `Scraper.IntCellNonNegative` | app/scrapers/cricbuzz_scraper.py:170-179 | every integer cell is non-negative |
| `Scraper.BattingRowRules` | app/scrapers/cricbuzz_scraper.py:168-180 | batting counts are non-negative, and strike rate, hundreds, fifties, fours and sixes are 0 when their column is missing |
| `Scraper.BowlingRowRules` | app/scrapers/cricbuzz_scraper.py:209-219 | bowling counts are non-negative, and economy, strike rate and the hauls are 0 when their column is missing |
| `Scraper.KeptRows` | app/scrapers/cricbuzz_scraper.py:162-181 | each kept entry parses a row with enough cells, at most one per row, and every such row is kept |
| `Scraper.TableRows` | app/scrapers/cricbuzz_scraper.py:161-181 | the same for the rows after the header |
| `Scraper.DetailsShape` | app/scrapers/cricbuzz_scraper.py:33-73 | the details are missing exactly when the page is; otherwise they carry the id and the URL and every bio field |
| `FindPlayerUrl.LStripSlashes` | scripts/find_player_url.py:42 | the leading-slash strip removes only slashes, from the front, up to the first other character |
| `FindPlayerUrl.StripSlashes` | scripts/find_player_url.py:42 | `strip('/')` leaves no slash at either end |
| `FindPlayerUrl.StripSlashesKeeps` | scripts/find_player_url.py:42 | a text without a slash at either end is kept |
| `FindPlayerUrl.StripLeadingSlash` | scripts/find_player_url.py:42 | one more leading slash changes nothing |
| `FindPlayerUrl.TrailingSlashIgnored` | scripts/find_player_url.py:42 | one more trailing slash changes nothing |
| `FindPlayerUrl.SlashesOnly` | scripts/find_player_url.py:42 | a text of slashes strips to nothing |
| `FindPlayerUrl.ExtractIdAndSlug` | scripts/find_player_url.py:39-47 | the id and the slug are found together or not at all |
| `FindPlayerUrl.SplitSegments3` | scripts/find_player_url.py:42 | three slash-free segments joined by slashes split back into them |
| `FindPlayerUrl.SegmentsExtract` | scripts/find_player_url.py:43-46 | segments `profiles`, id, slug, and any more, give that id and slug |
| `FindPlayerUrl.ThreeSegments` | scripts/find_player_url.py:39-47 | `/profiles/{id}/{slug}` gives that id and slug for any slash-free id, numeric or not, and any non-empty slash-free slug |
| `FindPlayerUrl.MoreSegments` | scripts/find_player_url.py:43-46 | segments after the slug are ignored |
| `FindPlayerUrl.ExtractIdAndSlugFound` | scripts/find_player_url.py:39-47 | an extracted id and slug are slash-free, and the stripped URL is `profiles/{id}/{slug}` followed by nothing or by more segments |
| `FindPlayerUrl.ExtractExample` | scripts/find_player_url.py:41 | `/profiles/1413/virat-kohli` gives 1413 and virat-kohli |
| `FindPlayerUrl.ProfilePathPieces` | app/scrapers/cricbuzz_scraper.py:36-39 | the scraper's profile path is `/profiles/{id}/{slug}`, or `/profiles/{id}` without a slug |
| `FindPlayerUrl.ProfilePathRoundTrip` | scripts/find_player_url.py:39-47 | extracting from the scraper's profile path gives back the printed id and the slug |
| `FindPlayerUrl.ExtraSegmentsIgnored` | scripts/find_player_url.py:43-46 | extra segments after a profile path do not change what is extracted |
| `FindPlayerUrl.NoSlugNotExtracted` | scripts/find_player_url.py:43 | a profile path without a slug gives neither id nor slug |
| `FindPlayerUrl.SlashesIgnored` | scripts/find_player_url.py:42 | a slash added at either end never changes what is extracted |
| `FindPlayerUrl.SearchUrl` | scripts/find_player_url.py:9 | the search URL is the search base followed by the name with every space replaced by `+` |
| `FindPlayerUrl.SearchPlayer` | scripts/find_player_url.py:7-36 | a failed request gives []; otherwise the player links of the page |
| `FindPlayerUrl.PlayerLinksExact` | scripts/find_player_url.py:25-30 | every result is a relative profile link with its full URL, and every such link of the page is listed |
| `FindPlayerUrl.ProfilePathIsPlayerLink` | scripts/find_player_url.py:27 | every path the scraper builds passes the search's player-link test |
| `VectorStore.ProfileParts` | app/services/vector_store.py:47-53 | the text starts from five profile fields |
| `VectorStore.BattingStep` | app/services/vector_store.py:57-61 | one more batting row adds its three summaries when it is an IPL row, nothing otherwise |
| `VectorStore.BowlingStep` | app/services/vector_store.py:65-68 | one more bowling row adds its two summaries when it is an IPL row, nothing otherwise |
| `VectorStore.AppendBatting` | app/services/vector_store.py:56-61 | the batting loop appends exactly the batting summaries of the IPL rows |
| `VectorStore.AppendBowling` | app/services/vector_store.py:64-68 | the bowling loop appends exactly the bowling summaries of the IPL rows |
| `VectorStore.CreatePlayerText` | app/services/vector_store.py:45-70 | `create_player_text` computes the player text: the truthy parts joined by single spaces |
| `VectorStore.ShownAppend` | app/services/vector_store.py:70 | dropping falsy parts distributes over concatenation |
| `VectorStore.ShownOne` | app/services/vector_store.py:70 | one part is shown, as its text, exactly when it is truthy |
| `VectorStore.BattingAppend` | app/services/vector_store.py:57-61 | batting summaries of concatenated row lists concatenate |
| `VectorStore.BowlingAppend` | app/services/vector_store.py:65-68 | bowling summaries of concatenated row lists concatenate |
| `VectorStore.NonIplIgnored` | app/services/vector_store.py:58 | a row of another format adds nothing to either summary |
| `VectorStore.SummaryCounts` | app/services/vector_store.py:56-68 | three batting parts and two bowling parts per IPL row |
| `VectorStore.SummariesKept` | app/services/vector_store.py:56-70 | all those summary parts survive the truthiness filter |
| `VectorStore.SummaryKept` | app/services/vector_store.py:59-68 | every summary text is non-empty |
| `VectorStore.TextOrder` | app/services/vector_store.py:45-70 | the shown parts are the profile fields, then the batting summaries, then the bowling summaries |
| `VectorStore.NameLeads` | app/services/vector_store.py:48 | a non-empty name opens the player text |
| `VectorStore.Payload` | app/services/vector_store.py:85-91 | the payload is a dict |
| `VectorStore.Collection.constructor` | app/services/vector_store.py:16-23 | a new collection holds no points |
| `VectorStore.Collection.AddPlayer` | app/services/vector_store.py:72-104 | True exactly when the upsert goes through; then the point for the id holds the player's payload, else nothing changes |
| `VectorStore.Collection.BulkAddPlayers` | app/services/vector_store.py:156-163 | the count of players with a truthy key whose upsert went through, and the points after upserting them in order under `cricbuzz_id or id` |
| `VectorStore.AddedBound` | app/services/vector_store.py:156-163 | no more are counted than players with a truthy key, and no more than the players |
| `VectorStore.LookupAt` | app/services/vector_store.py:85-91 | a field whose key does not occur earlier is found with its value |
| `VectorStore.DistinctFields` | app/services/vector_store.py:85-91 | with distinct keys, every field is found with its value |
| `VectorStore.PayloadFields` | app/services/vector_store.py:85-91 | the payload holds the id, the name, role and country (or empty texts) and the player text |
| `VectorStore.PayloadReadable` | app/services/vector_store.py:129-133 | every stored payload has the four fields the search reads |
| `VectorStore.SearchSimilarPlayers` | app/services/vector_store.py:106-139 | any error, including an unreadable payload, gives []; otherwise one row per hit |
| `VectorStore.UnreadableStops` | app/services/vector_store.py:127-139 | one payload without the fields raises, and the whole search gives [] |
| `VectorStore.HitRowsAll` | app/services/vector_store.py:127-134 | with readable payloads, row i is the row of hit i |
| `VectorStore.HitRowsExact` | app/services/vector_store.py:106-139 | readable payloads give one row per hit in order; any unreadable one gives [] |
| `VectorStore.StoredHitsListed` | app/services/vector_store.py:106-139 | hits on points added by `add_player` are all listed |
| `VectorStore.HitRowFields` | app/services/vector_store.py:128-134 | a row carries the payload's id, name, role and country and the hit's score |
| `VectorStore.PayloadRoundTrip` | app/services/vector_store.py:72-134 | a payload stored by `add_player` comes back from the search with the player's id, name, role and country and the score |
| `Ingest.NewPlayer` | scripts/scrape_players.py:27-35 | a new player row carries the scraped Cricbuzz id and profile URL, and the scraped name when there is one |
| `Ingest.BattingJsons` | scripts/scrape_players.py:83-86 | one JSON object per batting row |
| `Ingest.BowlingJsons` | scripts/scrape_players.py:83-86 | one JSON object per bowling row |
| `Ingest.DetailsKey` | scripts/scrape_players.py:86 | the dict passed to the vector store carries the Cricbuzz id, so a non-zero id keys the point |
| `Ingest.UpsertStep` | scripts/scrape_players.py:41-58 | one more stat overwrites the lowest committed row of its (player, format) when there is one, and otherwise adds a row under the next id; rows added earlier in the loop are not seen |
| `Ingest.UpsertShape` | scripts/scrape_players.py:41-78 | after the loop the ids are the committed ones plus one fresh id per stat whose format had no committed row, in order; rows keep their player and format; committed rows no lookup found are untouched; new rows belong to the player with a scraped format |
| `Ingest.UpsertLastWins` | scripts/scrape_players.py:48-51 | when a format has a committed row, the last stat of that format decides the row the lookup finds |
| `Ingest.UpsertOwned` | scripts/scrape_players.py:44-55 | every stat row belongs to a known player |
| `Ingest.UpsertIdempotent` | scripts/scrape_players.py:41-78 | with no format repeated among the stats, saving them twice gives the same tables and counter as saving them once |
| `Ingest.FirstRow` | scripts/scrape_players.py:43-46 | the lookup gives the lowest committed id of a matching row, and None exactly when no row below the counter matches |
| `Ingest.UpsertKeys` | scripts/scrape_players.py:41-58 | the ids after the loop are the committed ones and one per inserted stat from the counter on |
| `Ingest.UpsertKeepsRows` | scripts/scrape_players.py:41-58 | every id stays below the new counter and every committed row keeps its player and format |
| `Ingest.UpsertKeepsMatches` | scripts/scrape_players.py:41-58 | a row that matched a (player, format) still matches after the loop |
| `Ingest.UpsertFindsEvery` | scripts/scrape_players.py:41-78 | after the loop every scraped format of the player has a row the lookup finds |
| `Ingest.NoNewStats` | scripts/scrape_players.py:52-58 | when every lookup of the stats finds a row, nothing is inserted |
| `Ingest.UpsertAgainAddsNothing` | scripts/scrape_players.py:41-78 | saving the same stats a second time adds no row and leaves the counter as it was |
| `Ingest.UpsertUnchanged` | scripts/scrape_players.py:48-51 | stats that each already sit in the row their lookup finds change nothing |
| `Ingest.FirstRowAlike` | scripts/scrape_players.py:43-46 | two tables whose rows match alike give the same lookup |
| `Ingest.FirstRowExtend` | scripts/scrape_players.py:43-46 | a row found below one counter is found below any larger one |
| `Ingest.UpsertKeepsFirst` | scripts/scrape_players.py:43-51 | the lookup of a format that had a committed row finds the same row after the loop |
| `Ingest.UpsertNewFormat` | scripts/scrape_players.py:52-58 | a format without a committed row, scraped once, ends in the row the next lookup finds, holding that stat |
| `Ingest.NewFormatInserted` | scripts/scrape_players.py:52-58 | the last stat, of a new format not scraped before it, is inserted where the next lookup finds it |
| `Ingest.NewFormatKept` | scripts/scrape_players.py:41-58 | a stat held by the row its lookup finds stays held after a stat of another format |
| `Ingest.HeldAfterUpdate` | scripts/scrape_players.py:48-51 | overwriting a row of another format keeps a held stat held |
| `Ingest.HeldAfterInsert` | scripts/scrape_players.py:52-58 | adding a row of another format keeps a held stat held |
| `Ingest.RepeatedFormatTwoRows` | app/database.py:22 | a new format scraped twice in one table gets two rows, since the session does not flush the first before the second lookup |
| `Ingest.RepeatedFormatResaved` | app/database.py:22 | saving those two stats again adds no row, and the first row ends up holding the second stat |
| `Ingest.UpsertStats` | scripts/scrape_players.py:41-78 | the stats loop, each lookup reading the committed rows, computes the upserted table and the next free id |
| `Ingest.Database.constructor` | app/database.py:31-42 | an empty database whose driver is or is not reachable |
| `Ingest.Database.FindPlayer` | scripts/scrape_players.py:18-20 | the player with the Cricbuzz id when there is one, and None exactly when no player has it |
| `Ingest.Database.EnsurePlayer` | scripts/scrape_players.py:17-38 | an existing player is reused with nothing changed; otherwise a new player row is added under the next id and indexed by its Cricbuzz id |
| `Ingest.Database.SaveTables` | scripts/scrape_players.py:15-80 | with the driver down nothing is saved; otherwise the player with the Cricbuzz id is reused or added under the next id, and both stat tables are upserted for it against the committed rows |
| `Ingest.Database.SavePlayer` | scripts/scrape_players.py:13-92 | an id (at least 1, so truthy) exactly when the driver is up; then the player is cached under `player:{id}`, no other cache key changes, and the point is offered to the vector store under that id; None otherwise, with the cache and the store unchanged |
| `Ingest.Database.IngestOne` | scripts/scrape_players.py:107-130 | one entry succeeds exactly when the driver is up and the page is scraped; then its Cricbuzz id is stored; no cache key outside `player:` changes |
| `Ingest.Database.ScrapeAndIngest` | scripts/scrape_players.py:95-143 | successes and failures add up to the entries; the successes are the scraped entries (none with the driver down); the rate is their percentage; every scraped id is stored; no cache key outside `player:` changes |
| `Ingest.NoDuplicatePlayers` | app/models.py:14 | no two players share a Cricbuzz id |
| `Ingest.ScrapedIdsExact` | scripts/scrape_players.py:105-130 | an id is among the scraped ids exactly when some entry with it is scraped |
| `Ingest.ScrapedStep` | scripts/scrape_players.py:105-130 | one more entry adds one to the count and its id to the ids exactly when its page is fetched |
| `Ingest.ScrapedAtMost` | scripts/scrape_players.py:105-130 | no more entries are scraped than given |
| `Ingest.SuccessRate` | scripts/scrape_players.py:142 | the rate lies in [0, 100]; 100 exactly when nothing failed, 0 exactly when nothing succeeded |
| `Ingest.SuccessRateBound` | scripts/scrape_players.py:142 | a part over a positive whole lies in [0, 1], is 1 exactly for the whole and 0 exactly for nothing |
| `Ingest.Unslugged` | scripts/scrape_players.py:170 | every id of an id list becomes an entry without a slug |
| `Ingest.ReadPlayerList` | scripts/scrape_players.py:155-186 | the input loop computes the player list the lines give |
| `Ingest.NothingAfterStop` | scripts/scrape_players.py:161-171 | lines after a blank line or an id list are never read |
| `Ingest.ParseAppend` | scripts/scrape_players.py:159-186 | lines before any stop contribute their entries, followed by those of the rest |
| `Ingest.IdListLine` | scripts/scrape_players.py:165-171 | an id list adds its ids without slugs and ends the input |
| `Ingest.BlankLine` | scripts/scrape_players.py:160-162 | a blank line ends the input, adding nothing |
| `Ingest.Printed` | scripts/scrape_players.py:168 | one printed number per id |
| `Ingest.PrintedChars` | scripts/scrape_players.py:165 | a printed number holds no comma, letter or space |
| `Ingest.IdsOfPrinted` | scripts/scrape_players.py:168 | printed ids read back as the same ids |
| `Ingest.JoinIdChars` | scripts/scrape_players.py:165 | pieces free of letters and spaces joined by commas stay free of them |
| `Ingest.ClassifyIds` | scripts/scrape_players.py:165-171 | a letter-free line with a comma whose pieces all read as numbers is an id list |
| `Ingest.ClassifySlug` | scripts/scrape_players.py:177-182 | a line with a comma and a letter whose first field reads as a number is that id with the stripped rest as slug |
| `Ingest.IdLine` | scripts/scrape_players.py:160-165 | two or more printed ids joined by commas are a stripped, non-empty, letter-free line with a comma |
| `Ingest.PrintedPieces` | scripts/scrape_players.py:168 | printed ids hold no comma and only id characters |
| `Ingest.IdListRoundTrip` | scripts/scrape_players.py:165-171 | two or more ids written as `1413,253802,4608` read back as those ids |
| `Ingest.LoneIdRejected` | scripts/scrape_players.py:185-186 | a lone id without a comma is refused |
| `Ingest.SlugLine` | scripts/scrape_players.py:177-181 | `ID,slug` splits at its first comma into the id text and the slug |
| `Ingest.IdSlugRoundTrip` | scripts/scrape_players.py:177-182 | `1413,virat-kohli` reads back as that id with that slug |
| `Ingest.ScrapeCustomPlayers` | scripts/scrape_players.py:146-192 | the pipeline runs exactly when the lines give players, over all of them; otherwise nothing changes |
| `Ingest.MenuIngestsSome` | scripts/scrape_players.py:208-224 | every menu choice that ingests passes a non-empty list, so the success rate is defined |

## Left out

- Gemini, Qdrant, the sentence encoder, the Redis client, Twilio and the HTTP fetching with `tenacity` retries are not modelled. Each is an oracle parameter, because its behaviour is outside the code.
- BeautifulSoup parsing is not modelled. A page is the headings, info lines, page text and table cells the scraper reads from it.
- `_safe_float` is not modelled. It is a `RealReader` parameter, and the scraper's float cells go through it.
- Float text is not modelled: `:.2f`, `*100:.1f`, `round(...)` in `valuation.py`, and Python's `str()` of floats, lists and dicts. These are formatting parameters, so the model states which number is shown, not its digits.
- Python's randomised `hash()` is an uninterpreted function, fixed within one process.
- Unicode case mapping and letter classes are not modelled: `lower`, `upper`, `title` and `isalpha` are the ASCII ones. Whitespace is Python's full `isspace` set.
- `int()` inputs with non-ASCII digits fall outside `Values.PyInt`, which reads an optional sign and ASCII digits, with single underscores between digits, between whitespace.
- A database failure is one flag on the database object: a driver that is down raises on every call. A failure part-way through one save, with its rollback, is not modelled separately.
- `Ingest.UpsertStats` replaces the whole stat of an existing (player, format) row. The source sets its fields one by one with `setattr`. Both give the same row, because every scraped stat dict carries the same keys.
- Ordering and typing of JSON keys outside the fields the code reads is not modelled: `Ingest.DetailsJson` lays out the bio fields in one fixed order.
- Non-dict inputs to functions that expect a dict are not modelled, because the callers only ever pass dicts.
- `find_hidden_gems` is not modelled. The handler's hidden-gems path goes through `search_similar_players` directly.
- `health_check` of the cache and of the vector store is not modelled, and neither are `_ensure_collection`, `get_db_session`, `init_db` or the import-time singletons. Their only effect is on connections.
- Printed progress messages, `time.sleep` and the rate-limit delay are not modelled. The rate passed to `scrape_and_ingest` is kept in `Ingest.MenuAction` but has no effect in the model.
- The interactive `main` of `scripts/find_player_url.py` is not modelled. Its prompts and prints are I/O around `search_player_on_cricbuzz`.
- End of input while reading the custom list is not modelled: `input()` raising `EOFError` is treated as the end of the lines.
- The ORM-object valuation helpers are not modelled: `_calculate_batting_impact`, `_calculate_bowling_impact`, `_calculate_international_status` and `_get_key_stats` (`app/services/valuation.py:187-296`). `calculate_valuation` never calls them.
- `simple_valuation` is not part of this model. Its import in the handler always fails, so the valuation path uses `valuation_model`.
- The Twilio webhook and send endpoints of `app/main.py` are not modelled. They are transport only.
- `Scraper.ParseBattingStats` and `Scraper.ParseBowlingStats` are stated over a generic row filter. Their row-length and default rules are proved per row by `Scraper.BattingRowRules` and `Scraper.BowlingRowRules`, and the filter's properties by `Scraper.KeptRows` and `Scraper.TableRows`. No single lemma combines the two for the concrete tables.
- `TextToSql.CachedSql` treats a truthy cached value that is not a text (a number, list or dict left under the looked-up key) as a miss. In the source `if cached:` returns it, and `_is_safe_query` then fails on `.upper()` with an `AttributeError` that neither `natural_language_to_data` nor the two handlers catch. The model has no exception path there. Only `cache_query_result` writes such values, and the model never finds one under this key except through a hash collision.
- `Ingest.FirstRow` models `.first()` of a query without `ORDER BY` as the matching row with the lowest id. PostgreSQL does not promise any order, so the source may pick another row when several match.
- `Ingest.Upserted` gives the inserted stat rows consecutive ids from the counter, in the order they were added. That is the order the commit flushes them; the autoincrement ids PostgreSQL hands out are not modelled otherwise.
- `Ingest.UpsertIdempotent` holds only when no format is repeated among the stats. With a repeated new format the first save adds two rows and a second save rewrites the first of them (`Ingest.RepeatedFormatTwoRows`, `Ingest.RepeatedFormatResaved`).
- `Strings.SplitWordsAvoid` states only that a pattern missing from a text is missing from each word of its `split()`. The model does not prove that each word is itself a contiguous part of the text.

## Findings

| source | as written | input that shows it | evidently intended | confidence | as-written member | corrected member |
|---|---|---|---|---|---|---|
| app/services/text_to_sql.py:129 | `generate_sql` looks up its cache through `get_query_result`, which reads `query:{hash("sql:"+q)}`, but stores the query with `set(f"sql:{q}", ...)`, so a stored query is never found again | any question asked twice while the cache is up: the second call asks the model again | read the key it writes, `redis_cache.get(f"sql:{q}")` | not executed | `TextToSql.Service.GenerateSql`, `TextToSql.Service.NaturalLanguageToData`, `TextToSql.StoredSqlNeverFound` | `TextToSql.Service.GenerateSqlFixed`, `TextToSql.Service.NaturalLanguageToDataFixed`, `TextToSql.Service.AnswerFixedSafe` |
