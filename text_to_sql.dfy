/**
 * The natural-language-to-SQL service: the keyword safety gate, the
 * clean-up of model output, and the generate / execute / answer pipeline
 * with the language model, the SQL cache and the database as oracles.
 */
module TextToSql {
  import opened Strings
  import opened Values
  import opened RedisCache
  import opened Database

  // ---------------------------------------------------------------------
  // Safety gate

  /** The keywords whose occurrence anywhere in the upper-cased query rejects it. */
  const ForbiddenKeywords: seq<string> :=
    ["DROP", "DELETE", "TRUNCATE", "ALTER", "CREATE", "INSERT", "UPDATE"]

  /** No forbidden keyword occurs in `sql.upper()`, not even inside a longer word. */
  predicate NoForbidden(sql: string) {
    forall k <- ForbiddenKeywords :: !Contains(ToUpper(sql), k)
  }

  /** `TextToSQL._is_safe_query` */
  predicate IsSafeQuery(sql: string) {
    NoForbidden(sql) && StartsWith(Strip(ToUpper(sql)), "SELECT")
  }

  /** A query whose upper-case form contains a forbidden keyword is rejected. */
  lemma ForbiddenRejected(sql: string, k: string)
    requires k in ForbiddenKeywords && Contains(ToUpper(sql), k)
    ensures !IsSafeQuery(sql)
  {
  }

  /** An accepted query, stripped and upper-cased, begins with SELECT. */
  lemma SafeStartsWithSelect(sql: string)
    requires IsSafeQuery(sql)
    ensures |Strip(ToUpper(sql))| >= 6 && Strip(ToUpper(sql))[..6] == "SELECT"
  {
  }

  lemma UpperOfLower(s: string)
    ensures ToUpper(ToLower(s)) == ToUpper(s)
  {
  }

  /** The gate ignores case: lower-casing a query does not change the verdict. */
  lemma SafetyIgnoresCase(sql: string)
    ensures IsSafeQuery(ToLower(sql)) == IsSafeQuery(sql)
  {
    UpperOfLower(sql);
  }

  /**
   * A prefix of whitespace changes nothing: the upper-cased query is
   * stripped before the SELECT test, and whitespace cannot be part of a
   * keyword.
   */
  lemma LeadingSpaceIgnored(ws: string, sql: string)
    requires forall c <- ws :: IsSpace(c)
    ensures IsSafeQuery(ws + sql) == IsSafeQuery(sql)
  {
    SpacePrefixKeywords(ws, sql);
    SpacePrefixStripped(ws, sql);
  }

  lemma SpacePrefixKeywords(ws: string, sql: string)
    requires forall c <- ws :: IsSpace(c)
    ensures NoForbidden(ws + sql) == NoForbidden(sql)
  {
    var u := ToUpper(sql);
    NoLettersFree(ws);
    ToUpperConcat(ws, sql);
    forall k | k in ForbiddenKeywords
      ensures Contains(ws + u, k) == Contains(u, k)
    {
      if Contains(u, k) {
        ContainsInPart(ws, u, k);
      }
      MatchSkipsPrefix(ws, u, k);
    }
  }

  lemma SpacePrefixStripped(ws: string, sql: string)
    requires forall c <- ws :: IsSpace(c)
    ensures Strip(ToUpper(ws + sql)) == Strip(ToUpper(sql))
  {
    NoLettersFree(ws);
    ToUpperConcat(ws, sql);
    LStripSpacePrefix(ws, ToUpper(sql));
  }

  /**
   * The column names created_at and updated_at from the players table
   * contain CREATE and UPDATE, so any query that mentions them is rejected.
   */
  lemma TimestampColumnsRejected(a: string, b: string)
    ensures !IsSafeQuery(a + "created_at" + b)
    ensures !IsSafeQuery(a + "updated_at" + b)
  {
    var c, u := "created_at", "updated_at";
    assert ToUpper(c)[..6] == "CREATE";
    assert ToUpper(u)[..6] == "UPDATE";
    assert OccursAt(ToUpper(c), "CREATE", 0);
    assert OccursAt(ToUpper(u), "UPDATE", 0);
    ToUpperConcat(a, c);
    ToUpperConcat(a + c, b);
    ToUpperConcat(a, u);
    ToUpperConcat(a + u, b);
    ContainsInPart(ToUpper(a), ToUpper(c), "CREATE");
    ContainsInPart(ToUpper(a) + ToUpper(c), ToUpper(b), "CREATE");
    ContainsInPart(ToUpper(a), ToUpper(u), "UPDATE");
    ContainsInPart(ToUpper(a) + ToUpper(u), ToUpper(b), "UPDATE");
    ForbiddenRejected(a + c + b, "CREATE");
    ForbiddenRejected(a + u + b, "UPDATE");
  }

  // ---------------------------------------------------------------------
  // Keyword-free text, assembled from keyword-free pieces

  /**
   * Missing the upper-case letters `a` and `b` in both cases rules out
   * every keyword that contains one of them.
   */
  lemma Without(w: string, a: char, b: char)
    requires IsUpper(a) && IsUpper(b)
    requires a !in w && LowerChar(a) !in w && b !in w && LowerChar(b) !in w
    ensures forall k <- ForbiddenKeywords :: (a in k || b in k) ==> !Contains(ToUpper(w), k)
  {
    forall k | k in ForbiddenKeywords && (a in k || b in k)
      ensures !Contains(ToUpper(w), k)
    {
      if a in k {
        LacksLetter(w, k, a);
      } else {
        LacksLetter(w, k, b);
      }
    }
  }

  // Every keyword contains D or R, D or E, D or T, O or T, P or T, E or O;
  // and D, L, N or C. A word lacking one such group is keyword-free.

  lemma LacksDR(w: string)
    requires 'D' !in w && 'd' !in w && 'R' !in w && 'r' !in w
    ensures NoForbidden(w)
  {
    Without(w, 'D', 'R');
  }

  lemma LacksDE(w: string)
    requires 'D' !in w && 'd' !in w && 'E' !in w && 'e' !in w
    ensures NoForbidden(w)
  {
    Without(w, 'D', 'E');
  }

  lemma LacksDT(w: string)
    requires 'D' !in w && 'd' !in w && 'T' !in w && 't' !in w
    ensures NoForbidden(w)
  {
    Without(w, 'D', 'T');
  }

  lemma LacksOT(w: string)
    requires 'O' !in w && 'o' !in w && 'T' !in w && 't' !in w
    ensures NoForbidden(w)
  {
    Without(w, 'O', 'T');
  }

  lemma LacksPT(w: string)
    requires 'P' !in w && 'p' !in w && 'T' !in w && 't' !in w
    ensures NoForbidden(w)
  {
    Without(w, 'P', 'T');
  }

  lemma LacksEO(w: string)
    requires 'E' !in w && 'e' !in w && 'O' !in w && 'o' !in w
    ensures NoForbidden(w)
  {
    Without(w, 'E', 'O');
  }

  lemma LacksDLNC(w: string)
    requires 'D' !in w && 'd' !in w && 'L' !in w && 'l' !in w
    requires 'N' !in w && 'n' !in w && 'C' !in w && 'c' !in w
    ensures NoForbidden(w)
  {
    Without(w, 'D', 'L');
    Without(w, 'N', 'C');
  }

  /** Every keyword has at least four letters. */
  lemma ShortIsFree(w: string)
    requires |w| < 4
    ensures NoForbidden(w)
  {
  }

  /** Text without letters is keyword-free and survives upper-casing unchanged. */
  lemma NoLettersFree(s: string)
    requires forall c <- s :: !IsLetter(c)
    ensures ToUpper(s) == s
    ensures forall k <- ForbiddenKeywords, c <- s :: c !in k
  {
    ToUpperNoLetters(s);
  }

  /** Keyword-free pieces joined by a letter-free separator stay keyword-free. */
  lemma NoForbiddenAcross(a: string, s: string, b: string)
    requires NoForbidden(a) && NoForbidden(b)
    requires |s| > 0 && forall c <- s :: !IsLetter(c)
    ensures NoForbidden(a + s + b)
  {
    NoLettersFree(s);
    ToUpperConcat(a, s);
    ToUpperConcat(a + s, b);
    forall k | k in ForbiddenKeywords
      ensures !Contains(ToUpper(a + s + b), k)
    {
      NoMatchAcross(ToUpper(a), s, ToUpper(b), k);
    }
  }

  lemma {:induction false} JoinNoForbidden(sep: string, parts: seq<string>)
    requires |sep| > 0 && forall c <- sep :: !IsLetter(c)
    requires forall p <- parts :: NoForbidden(p)
    ensures NoForbidden(Join(sep, parts))
    decreases |parts|
  {
    if |parts| == 1 {
      assert parts[0] in parts;
    } else if |parts| > 1 {
      assert parts[0] in parts;
      assert forall p <- parts[1..] :: p in parts;
      JoinNoForbidden(sep, parts[1..]);
      NoForbiddenAcross(parts[0], sep, Join(sep, parts[1..]));
    }
  }

  // ---------------------------------------------------------------------
  // Cleaning model output

  /**
   * `re.sub(m + r'\n?', '', s)`: scanning left to right, every occurrence
   * of the marker `m`, together with one newline right after it, is deleted.
   */
  function RemoveMarker(s: string, m: string): string
    requires |m| > 0
    decreases |s|
  {
    if |s| == 0 then ""
    else if StartsWith(s, m + "\n") then RemoveMarker(s[|m| + 1..], m)
    else if StartsWith(s, m) then RemoveMarker(s[|m|..], m)
    else [s[0]] + RemoveMarker(s[1..], m)
  }

  /** `TextToSQL._clean_sql` */
  function CleanSql(raw: string): string {
    var unfenced := RemoveMarker(RemoveMarker(raw, "```sql"), "```");
    var joined := Join(" ", Split(unfenced));
    var ended := if EndsWith(joined, ";") then joined else joined + ";";
    Strip(ended)
  }

  /** The plain fence marker; "```sql" begins with it. */
  const Fence: string := "```"

  /** A marker that does not occur is not removed: the text comes back unchanged. */
  lemma {:induction false} RemoveAbsent(s: string, m: string)
    requires |m| > 0 && !Contains(s, m)
    ensures RemoveMarker(s, m) == s
    decreases |s|
  {
    if |s| > 0 {
      assert !OccursAt(s, m, 0);
      StartsWithPrefix(s, m, "\n");
      NoContainsSlice(s, 1, |s|, m);
      assert s[1..|s|] == s[1..];
      RemoveAbsent(s[1..], m);
      assert s == [s[0]] + s[1..];
    }
  }

  /** A leading backtick left by the fence pass was a leading backtick of its input. */
  lemma FirstTickKept(t: string)
    requires |RemoveMarker(t, Fence)| > 0 && RemoveMarker(t, Fence)[0] == '`'
    ensures |t| > 0 && t[0] == '`'
  {
  }

  /**
   * A backtick followed, after the fence pass, by two more backticks
   * starts a fence of the input itself.
   */
  lemma FenceKept(t: string)
    requires |t| > 0 && t[0] == '`'
    requires |RemoveMarker(t[1..], Fence)| >= 2 && RemoveMarker(t[1..], Fence)[..2] == "``"
    ensures StartsWith(t, Fence)
  {
    var u := t[1..];
    var r := RemoveMarker(u, Fence);
    assert |u| > 0;
    if !StartsWith(u, Fence + "\n") && !StartsWith(u, Fence) {
      assert r == [u[0]] + RemoveMarker(u[1..], Fence);
      assert r[0] == '`' && r[1] == '`';
      FirstTickKept(u[1..]);
      assert t[..3] == [t[0], u[0], u[1..][0]];
    } else {
      assert u[..3] == Fence;
      assert t[..3] == [t[0], u[0], u[1]];
    }
  }

  /**
   * After the plain-fence pass no fence is left: removing one cannot join
   * the backticks around it into a new one.
   */
  lemma {:induction false} NoFenceLeft(t: string)
    ensures !Contains(RemoveMarker(t, Fence), Fence)
    decreases |t|
  {
    if |t| == 0 {
      assert !OccursAt("", Fence, 0);
    } else if StartsWith(t, Fence + "\n") {
      NoFenceLeft(t[|Fence| + 1..]);
    } else if StartsWith(t, Fence) {
      NoFenceLeft(t[|Fence|..]);
    } else {
      var r := RemoveMarker(t[1..], Fence);
      NoFenceLeft(t[1..]);
      if t[0] == '`' && |r| >= 2 && r[..2] == "``" {
        FenceKept(t);
      }
      assert !StartsWith([t[0]] + r, Fence) by {
        if |r| >= 2 {
          assert ([t[0]] + r)[..3] == [t[0]] + r[..2];
        }
      }
      ConsNoMatch(t[0], r, Fence);
    }
  }

  /**
   * `_clean_sql` always yields a single-spaced text (no newline, no tab,
   * no run of spaces, nothing at either end) that ends with a semicolon
   * and holds no fence marker.
   */
  lemma CleanSqlShape(raw: string)
    ensures EndsWith(CleanSql(raw), ";")
    ensures SingleSpaced(CleanSql(raw))
    ensures !Contains(CleanSql(raw), Fence)
  {
    var unfenced := RemoveMarker(RemoveMarker(raw, "```sql"), Fence);
    var words := Split(unfenced);
    var joined := Join(" ", words);
    JoinSingleSpaced(words);
    NoFenceLeft(RemoveMarker(raw, "```sql"));
    SplitWordsAvoid(unfenced, Fence);
    JoinAvoids(words, Fence);
    var ended := if EndsWith(joined, ";") then joined else joined + ";";
    if !EndsWith(joined, ";") {
      AppendNonSpace(joined, ';');
      assert !OccursAt("", Fence, 0);
      NoMatchAcross(joined, ";", "", Fence);
      assert joined + ";" + "" == ended;
    }
    assert ended[|ended| - 1] == ';';
    assert !IsSpace(ended[0]);
    StripNoSpace(ended);
  }

  /** Input that is already clean comes back unchanged. */
  lemma CleanSqlFixpoint(s: string)
    requires SingleSpaced(s) && !Contains(s, Fence) && EndsWith(s, ";")
    ensures CleanSql(s) == s
  {
    assert !Contains(s, "```sql") by {
      assert Fence + "sql" == "```sql";
      if Contains(s, Fence + "sql") {
        ContainsPrefix(s, Fence, "sql");
      }
    }
    RemoveAbsent(s, "```sql");
    RemoveAbsent(s, Fence);
    SingleSpacedIsJoin(s);
    assert s[|s| - 1] == ';';
    StripNoSpace(s);
  }

  /** Cleaning twice is cleaning once. */
  lemma CleanSqlIdempotent(raw: string)
    ensures CleanSql(CleanSql(raw)) == CleanSql(raw)
  {
    CleanSqlShape(raw);
    CleanSqlFixpoint(CleanSql(raw));
  }

  // ---------------------------------------------------------------------
  // The service: model choice, generation, execution

  /**
   * The models `__init__` tries, in order: the configured one (or
   * gemini-1.5-flash when none is configured), its -latest variant, then
   * two fixed fallbacks.
   */
  function ModelCandidates(configured: string): (c: seq<string>)
    ensures |c| == 4 && c[2] == "gemini-pro" && c[3] == "text-bison@001"
    ensures configured != "" ==> c[0] == configured && c[1] == configured + "-latest"
  {
    var m := if configured == "" then "gemini-1.5-flash" else configured;
    [m, m + "-latest", "gemini-pro", "text-bison@001"]
  }

  /**
   * The loop of `__init__`: skip empty names, keep the first model that
   * loads, none if every one fails.
   */
  method PickModel(candidates: seq<string>, loads: string -> bool) returns (m: Option<string>)
    ensures m.Some? ==> exists i | 0 <= i < |candidates| ::
      candidates[i] == m.value && m.value != "" && loads(m.value)
      && forall j | 0 <= j < i :: candidates[j] == "" || !loads(candidates[j])
    ensures m.None? ==> forall i | 0 <= i < |candidates| :: candidates[i] == "" || !loads(candidates[i])
  {
    var i := 0;
    while i < |candidates|
      invariant 0 <= i <= |candidates|
      invariant forall j | 0 <= j < i :: candidates[j] == "" || !loads(candidates[j])
    {
      if candidates[i] != "" && loads(candidates[i]) {
        return Some(candidates[i]);
      }
      i := i + 1;
    }
    return None;
  }

  /** The errors `natural_language_to_data` reports. */
  const NoSqlError: string := "Could not generate valid SQL query"
  const ExecutionError: string := "Query execution failed"

  /** Generated SQL stays in the cache for an hour. */
  const SqlTtl: int := 3600

  /** The key `generate_sql` writes: `sql:` and the question. */
  function SqlKey(question: string): string {
    "sql:" + question
  }

  /** A cache hit counts when the value is a non-empty text. */
  function CachedSql(v: Option<Json>): (r: Option<string>)
    ensures r.Some? <==> v.Some? && v.value.JStr? && |v.value.s| > 0
    ensures r.Some? ==> r.value == v.value.s
  {
    if v.Some? && v.value.JStr? && |v.value.s| > 0 then Some(v.value.s) else None
  }

  /** Every text the cache holds under a `sql:` key passes the safety gate. */
  predicate CachedSqlSafe(c: Cache)
    reads c
  {
    SqlEntriesSafe(c.store)
  }

  predicate SqlEntriesSafe(store: map<string, Entry>) {
    forall k | k in store && StartsWith(k, "sql:") && store[k].value.JStr? ::
      IsSafeQuery(store[k].value.s)
  }

  /** Storing a safe text keeps every `sql:` entry safe. */
  lemma StoreSafeSql(store: map<string, Entry>, key: string, sql: string, expiry: int)
    requires SqlEntriesSafe(store) && IsSafeQuery(sql)
    ensures SqlEntriesSafe(store[key := Entry(JStr(sql), expiry)])
  {
  }

  /** A store the cache may or may not have written keeps every `sql:` entry safe. */
  lemma StoreKeepsSafe(before: map<string, Entry>, after: map<string, Entry>, key: string, sql: string,
                       expiry: int, written: bool)
    requires written ==> after == before[key := Entry(JStr(sql), expiry)]
    requires !written ==> after == before
    requires SqlEntriesSafe(before) && IsSafeQuery(sql)
    ensures SqlEntriesSafe(after)
  {
    if written {
      StoreSafeSql(before, key, sql, expiry);
    }
  }

  /** Storing a value that is not a text, such as a counter, keeps every `sql:` entry safe. */
  lemma StoreOtherKeepsSafe(store: map<string, Entry>, key: string, v: Json, expiry: int)
    requires SqlEntriesSafe(store) && !v.JStr?
    ensures SqlEntriesSafe(store[key := Entry(v, expiry)])
  {
  }

  /** Everything the database has executed passed the safety gate. */
  ghost predicate ExecutedSafe(db: Db)
    reads db
  {
    forall q <- db.executed :: IsSafeQuery(q)
  }

  /**
   * The model path of `generate_sql` once the model has answered: strip
   * the reply, clean it, and keep it only when it passes the gate.
   */
  function SqlOfReply(reply: string): Option<string> {
    var sql := CleanSql(Strip(reply));
    if IsSafeQuery(sql) then Some(sql) else None
  }

  /**
   * Whatever the model replies, a query that comes out passes the gate
   * and has the cleaned shape: single-spaced, ending in `;` (so never
   * empty) and free of code fences.
   */
  lemma ReplySqlShape(reply: string)
    ensures SqlOfReply(reply).Some? ==> var sql := SqlOfReply(reply).value;
      IsSafeQuery(sql) && SingleSpaced(sql) && EndsWith(sql, ";") && |sql| > 0 && !Contains(sql, Fence)
  {
    if SqlOfReply(reply).Some? {
      var sql := SqlOfReply(reply).value;
      assert sql == CleanSql(Strip(reply)) && IsSafeQuery(sql);
      CleanedShape(Strip(reply), sql);
    }
  }

  /** The shape of a cleaned query, stated for a name of it. */
  lemma CleanedShape(raw: string, sql: string)
    requires sql == CleanSql(raw)
    ensures SingleSpaced(sql) && EndsWith(sql, ";") && |sql| > 0 && !Contains(sql, Fence)
  {
    CleanSqlShape(raw);
    EndsWithSemicolon(sql);
  }

  /** Cleaning always leaves at least the semicolon. */
  lemma CleanSqlNonEmpty(raw: string, sql: string)
    requires sql == CleanSql(raw)
    ensures |sql| > 0
  {
    CleanSqlShape(raw);
    EndsWithSemicolon(sql);
  }

  lemma EndsWithSemicolon(s: string)
    requires EndsWith(s, ";")
    ensures |s| > 0
  {
  }

  /** A cleaned, gated reply is kept as it is. */
  lemma ReplySqlStable(reply: string)
    ensures SqlOfReply(reply).Some? ==> SqlOfReply(SqlOfReply(reply).value) == SqlOfReply(reply)
  {
    var sql := CleanSql(Strip(reply));
    CleanSqlShape(Strip(reply));
    if IsSafeQuery(sql) {
      StripNoSpace(sql);
      CleanSqlFixpoint(sql);
    }
  }

  class Service {
    /** The model `__init__` settled on; None when every candidate failed. */
    const model: Option<string>
    /**
     * The model's reply text for a question, or None when the call raises.
     * The prompt is a fixed text around the question, so the question
     * determines it.
     */
    const complete: (string, string) -> Option<string>
    const cache: Cache
    const db: Db

    constructor (configured: string, loads: string -> bool,
                 complete: (string, string) -> Option<string>, cache: Cache, db: Db)
      ensures this.complete == complete && this.cache == cache && this.db == db
      ensures model.Some? ==> model.value in ModelCandidates(configured) && loads(model.value)
      ensures model.None? ==> forall c <- ModelCandidates(configured) :: c == "" || !loads(c)
    {
      var candidates := ModelCandidates(configured);
      var m := PickModel(candidates, loads);
      this.model := m;
      this.complete := complete;
      this.cache := cache;
      this.db := db;
    }

    /**
     * What the model path of `generate_sql` returns: None without a model
     * or when the call raises, otherwise the gated clean-up of the reply.
     */
    function Generated(question: string): Option<string> {
      if model.None? then None
      else match complete(model.value, question)
        case None => None
        case Some(reply) => SqlOfReply(reply)
    }

    /**
     * The store step of `generate_sql`: the query under `sql:{question}`
     * for an hour, when the cache is reachable.
     */
    method StoreSql(question: string, sql: string)
      modifies cache
      requires |sql| > 0
      ensures old(cache.up) ==>
        cache.store == old(cache.store)[SqlKey(question) := Entry(JStr(sql), old(cache.now) + SqlTtl)]
      ensures !old(cache.up) ==> cache.store == old(cache.store)
      ensures cache.now == old(cache.now) && cache.up == old(cache.up)
      ensures cache.up ==> CachedSql(cache.Get(SqlKey(question))) == Some(sql)
      ensures forall k | k != SqlKey(question) :: cache.Get(k) == old(cache.Get(k))
    {
      var _ := cache.Set(SqlKey(question), JStr(sql), Some(SqlTtl));
    }

    /** Every query the model path produces passes the gate and is cleaned. */
    lemma GeneratedIsSafe(question: string)
      ensures Generated(question).Some? ==> var sql := Generated(question).value;
        IsSafeQuery(sql) && SingleSpaced(sql) && EndsWith(sql, ";") && !Contains(sql, Fence)
    {
      if model.Some? && complete(model.value, question).Some? {
        ReplySqlShape(complete(model.value, question).value);
      }
    }

    /**
     * `generate_sql` as written: the lookup goes through
     * `get_query_result`, so it reads `query:{hash("sql:" + question)}`,
     * while the store writes `sql:{question}`. The write therefore never
     * changes what the lookup sees.
     */
    method GenerateSql(question: string) returns (sql: Option<string>)
      modifies cache
      ensures old(CachedSql(cache.GetQueryResult(SqlKey(question)))).Some? ==>
        sql == old(CachedSql(cache.GetQueryResult(SqlKey(question)))) && cache.store == old(cache.store)
      ensures old(CachedSql(cache.GetQueryResult(SqlKey(question)))).None? ==> sql == Generated(question)
      ensures old(CachedSql(cache.GetQueryResult(SqlKey(question)))).None? && sql.Some? && old(cache.up) ==>
        cache.store == old(cache.store)[SqlKey(question) := Entry(JStr(sql.value), old(cache.now) + SqlTtl)]
      ensures old(CachedSql(cache.GetQueryResult(SqlKey(question)))).None? && (sql.None? || !old(cache.up)) ==>
        cache.store == old(cache.store)
      ensures cache.now == old(cache.now) && cache.up == old(cache.up)
      ensures cache.GetQueryResult(SqlKey(question)) == old(cache.GetQueryResult(SqlKey(question)))
      ensures old(CachedSqlSafe(cache)) ==> CachedSqlSafe(cache)
    {
      var hit := CachedSql(cache.GetQueryResult(SqlKey(question)));
      if hit.Some? {
        return hit;
      }
      if model.None? {
        return None;
      }
      var reply := complete(model.value, question);
      if reply.None? {
        return None;
      }
      var cleaned := CleanSql(Strip(reply.value));
      if !IsSafeQuery(cleaned) {
        return None;
      }
      assert |cleaned| > 0 by { CleanSqlNonEmpty(Strip(reply.value), cleaned); }
      ghost var before := cache.store;
      assert QueryKey(cache.hash(SqlKey(question))) != SqlKey(question) by {
        StoredSqlNeverFound(question, cache.hash(SqlKey(question)));
      }
      StoreSql(question, cleaned);
      if SqlEntriesSafe(before) {
        StoreKeepsSafe(before, cache.store, SqlKey(question), cleaned, old(cache.now) + SqlTtl, cache.up);
      }
      return Some(cleaned);
    }

    /**
     * `generate_sql` with the lookup reading the key it writes. A stored
     * query is what the next call for the same question finds, and with
     * only safe text under `sql:` keys every answer passes the gate.
     */
    method GenerateSqlFixed(question: string) returns (sql: Option<string>)
      modifies cache
      ensures old(CachedSql(cache.Get(SqlKey(question)))).Some? ==>
        sql == old(CachedSql(cache.Get(SqlKey(question)))) && cache.store == old(cache.store)
      ensures old(CachedSql(cache.Get(SqlKey(question)))).None? ==> sql == Generated(question)
      ensures old(CachedSql(cache.Get(SqlKey(question)))).None? && sql.Some? && old(cache.up) ==>
        cache.store == old(cache.store)[SqlKey(question) := Entry(JStr(sql.value), old(cache.now) + SqlTtl)]
      ensures old(CachedSql(cache.Get(SqlKey(question)))).None? && (sql.None? || !old(cache.up)) ==>
        cache.store == old(cache.store)
      ensures cache.now == old(cache.now) && cache.up == old(cache.up)
      ensures sql.Some? && cache.up ==> CachedSql(cache.Get(SqlKey(question))) == sql
      ensures old(CachedSqlSafe(cache)) ==> CachedSqlSafe(cache)
      ensures old(CachedSqlSafe(cache)) && sql.Some? ==> IsSafeQuery(sql.value)
    {
      var hit := CachedSql(cache.Get(SqlKey(question)));
      if hit.Some? {
        return hit;
      }
      if model.None? {
        return None;
      }
      var reply := complete(model.value, question);
      if reply.None? {
        return None;
      }
      var cleaned := CleanSql(Strip(reply.value));
      if !IsSafeQuery(cleaned) {
        return None;
      }
      assert |cleaned| > 0 by { CleanSqlNonEmpty(Strip(reply.value), cleaned); }
      ghost var before := cache.store;
      StoreSql(question, cleaned);
      if SqlEntriesSafe(before) {
        StoreKeepsSafe(before, cache.store, SqlKey(question), cleaned, old(cache.now) + SqlTtl, cache.up);
      }
      return Some(cleaned);
    }

    /** `execute_query`: the gate again, and only then the database. */
    method ExecuteQuery(sql: string) returns (rows: Option<seq<Row>>)
      modifies db
      ensures !IsSafeQuery(sql) ==> rows.None? && db.executed == old(db.executed)
      ensures IsSafeQuery(sql) ==> rows == db.answer(sql) && db.executed == old(db.executed) + [sql]
      ensures old(ExecutedSafe(db)) ==> ExecutedSafe(db)
    {
      if !IsSafeQuery(sql) {
        return None;
      }
      rows := db.Execute(sql);
    }

    /**
     * The answer a pipeline gives from the query text `hit` its lookup
     * found: that text, or else the generated query, then what the database
     * returns for it.
     */
    function AnswerFrom(question: string, hit: Option<string>): QueryResult
      reads cache
    {
      var sql := if hit.Some? then hit else Generated(question);
      if sql.None? then QueryResult(false, Some(NoSqlError), None, None, None)
      else if !IsSafeQuery(sql.value) || db.answer(sql.value).None? then
        QueryResult(false, Some(ExecutionError), sql, None, None)
      else QueryResult(true, None, sql, db.answer(sql.value), Some(|db.answer(sql.value).value|))
    }

    /**
     * The answer `natural_language_to_data` gives as written, read off the
     * cache and the oracles as they stand before the call: the text behind
     * `generate_sql`'s lookup of `query:{hash("sql:" + question)}`, or the
     * generated query, then what the database returns for it.
     */
    function Answer(question: string): QueryResult
      reads cache
    {
      AnswerFrom(question, CachedSql(cache.GetQueryResult(SqlKey(question))))
    }

    /** The answer of the pipeline whose lookup reads `sql:{question}`, the key it writes. */
    function AnswerFixed(question: string): QueryResult
      reads cache
    {
      AnswerFrom(question, CachedSql(cache.Get(SqlKey(question))))
    }

    /**
     * The three shapes of an answer: no query, a failed execution with the
     * query, or the rows with their count.
     */
    lemma AnswerShapes(question: string)
      ensures var r := Answer(question);
        (r.success ==> r.error.None? && r.sql.Some? && r.data == db.answer(r.sql.value)
                       && r.data.Some? && r.count == Some(|r.data.value|))
        && (!r.success ==> r.data.None? && r.count.None?
                           && ((r.error == Some(NoSqlError) && r.sql.None?)
                               || (r.error == Some(ExecutionError) && r.sql.Some?)))
    {
    }

    /**
     * Rows come only from a query that passed the gate, and when the lookup
     * finds no text the query an answer names is the model's, which passed
     * it too.
     */
    lemma AnswerFromSafe(question: string, hit: Option<string>)
      ensures AnswerFrom(question, hit).success ==> IsSafeQuery(AnswerFrom(question, hit).sql.value)
      ensures hit.None? && AnswerFrom(question, hit).sql.Some? ==> IsSafeQuery(AnswerFrom(question, hit).sql.value)
    {
      if hit.None? {
        GeneratedIsSafe(question);
      }
    }

    /** `AnswerFromSafe` for the lookup as written. */
    lemma AnswerSafe(question: string)
      ensures Answer(question).success ==> IsSafeQuery(Answer(question).sql.value)
      ensures CachedSql(cache.GetQueryResult(SqlKey(question))).None? && Answer(question).sql.Some? ==>
        IsSafeQuery(Answer(question).sql.value)
    {
      AnswerFromSafe(question, CachedSql(cache.GetQueryResult(SqlKey(question))));
    }

    /**
     * With the corrected lookup, and only safe text under `sql:` keys, any
     * query an answer names passed the gate.
     */
    lemma AnswerFixedSafe(question: string)
      ensures AnswerFixed(question).success ==> IsSafeQuery(AnswerFixed(question).sql.value)
      ensures CachedSqlSafe(cache) && AnswerFixed(question).sql.Some? ==> IsSafeQuery(AnswerFixed(question).sql.value)
    {
      var hit := CachedSql(cache.Get(SqlKey(question)));
      AnswerFromSafe(question, hit);
      if hit.Some? {
        assert StartsWith(SqlKey(question), "sql:");
      }
    }

    /**
     * `natural_language_to_data`: no SQL, a failed execution, or the rows
     * with their count, as `Answer` gives them.
     */
    method NaturalLanguageToData(question: string) returns (r: QueryResult)
      modifies cache, db
      ensures r == old(Answer(question))
      ensures cache.now == old(cache.now) && cache.up == old(cache.up)
      ensures SameExcept(old(cache.store), cache.store, {SqlKey(question)})
      ensures old(CachedSqlSafe(cache)) ==> CachedSqlSafe(cache)
      ensures old(ExecutedSafe(db)) ==> ExecutedSafe(db)
    {
      var sql := GenerateSql(question);
      if sql.None? {
        return QueryResult(false, Some(NoSqlError), None, None, None);
      }
      var data := ExecuteQuery(sql.value);
      if data.None? {
        return QueryResult(false, Some(ExecutionError), sql, None, None);
      }
      return QueryResult(true, None, sql, data, Some(|data.value|));
    }

    /**
     * `natural_language_to_data` over `GenerateSqlFixed`: the answer
     * `AnswerFixed` gives; a query it stores is the one the next call for
     * the same question finds.
     */
    method NaturalLanguageToDataFixed(question: string) returns (r: QueryResult)
      modifies cache, db
      ensures r == old(AnswerFixed(question))
      ensures cache.now == old(cache.now) && cache.up == old(cache.up)
      ensures SameExcept(old(cache.store), cache.store, {SqlKey(question)})
      ensures r.sql.Some? && cache.up ==> CachedSql(cache.Get(SqlKey(question))) == r.sql
      ensures old(CachedSqlSafe(cache)) ==> CachedSqlSafe(cache)
      ensures old(ExecutedSafe(db)) ==> ExecutedSafe(db)
    {
      var sql := GenerateSqlFixed(question);
      if sql.None? {
        return QueryResult(false, Some(NoSqlError), None, None, None);
      }
      var data := ExecuteQuery(sql.value);
      if data.None? {
        return QueryResult(false, Some(ExecutionError), sql, None, None);
      }
      return QueryResult(true, None, sql, data, Some(|data.value|));
    }
  }

  /**
   * As written, what `generate_sql` stores is never what it looks up: the
   * two keys differ for every question and every hash.
   */
  lemma StoredSqlNeverFound(question: string, h: int)
    ensures QueryKey(h) != SqlKey(question)
  {
    NamespacesDisjoint(0, h, question, "");
  }
}
