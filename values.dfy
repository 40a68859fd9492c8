/**
 * Values shared by the services: optional values, Python's `str(int)` and
 * `int(str)`, slicing with `[:n]`, the JSON values the cache stores and the
 * cells of database rows.
 */
module Values {
  import opened Strings

  datatype Option<T> = None | Some(value: T) {
    /** `x or default` for a value that is either present or None. */
    function GetOr(default: T): T {
      if Some? then value else default
    }
  }

  // ---------------------------------------------------------------------
  // Decimal text of integers

  function DigitChar(d: nat): char
    requires d < 10
  {
    "0123456789"[d]
  }

  function DigitValue(c: char): nat {
    if IsDigit(c) then (c as int - '0' as int) as nat else 0
  }

  /** `str(n)` for a natural number: its decimal digits, without leading zeros. */
  function NatToString(n: nat): (r: string)
    ensures |r| > 0 && forall c <- r :: IsDigit(c)
    ensures n >= 10 ==> |r| >= 2
    decreases n
  {
    if n < 10 then [DigitChar(n)] else NatToString(n / 10) + [DigitChar(n % 10)]
  }

  /** `str(n)`: a minus sign for negative numbers, then the digits. */
  function IntToString(n: int): (r: string)
    ensures |r| > 0 && forall c <- r :: IsDigit(c) || c == '-'
  {
    if n < 0 then "-" + NatToString(-n) else NatToString(n)
  }

  lemma DigitCharValue(d: nat)
    requires d < 10
    ensures IsDigit(DigitChar(d)) && DigitValue(DigitChar(d)) == d
  {
  }

  /** Different numbers have different decimal texts. */
  lemma {:induction false} NatToStringInjective(a: nat, b: nat)
    requires NatToString(a) == NatToString(b)
    ensures a == b
    decreases a
  {
    var s := NatToString(a);
    if a < 10 && b < 10 {
      DigitCharValue(a);
      DigitCharValue(b);
    } else if a >= 10 && b >= 10 {
      assert s[..|s| - 1] == NatToString(a / 10) == NatToString(b / 10);
      assert s[|s| - 1] == DigitChar(a % 10) == DigitChar(b % 10);
      DigitCharValue(a % 10);
      DigitCharValue(b % 10);
      NatToStringInjective(a / 10, b / 10);
    }
  }

  /** The text of `n` starts with a minus sign exactly when `n` is negative. */
  lemma SignOfText(n: int)
    ensures (IntToString(n)[0] == '-') == (n < 0)
  {
    if n >= 0 {
      assert NatToString(n)[0] in NatToString(n);
    }
  }

  lemma IntToStringInjective(a: int, b: int)
    requires IntToString(a) == IntToString(b)
    ensures a == b
  {
    SignOfText(a);
    SignOfText(b);
    if a < 0 {
      assert NatToString(-a) == IntToString(a)[1..] == NatToString(-b);
      NatToStringInjective(-a, -b);
    } else {
      NatToStringInjective(a, b);
    }
  }

  // ---------------------------------------------------------------------
  // Python's int() on text

  /**
   * The digits a base-10 `int()` accepts after the sign: digits, where a
   * single underscore may separate two digits.
   */
  predicate ValidDigits(d: string) {
    |d| > 0 && IsDigit(d[0]) && IsDigit(d[|d| - 1])
    && (forall i | 0 <= i < |d| :: IsDigit(d[i]) || d[i] == '_')
    && (forall i, j | 0 <= i < |d| - 1 && j == i + 1 :: !(d[i] == '_' && d[j] == '_'))
  }

  /** The number the digits of `d` spell, skipping underscores. */
  function DigitsNat(d: string): nat
    decreases |d|
  {
    if |d| == 0 then 0
    else if d[|d| - 1] == '_' then DigitsNat(d[..|d| - 1])
    else DigitsNat(d[..|d| - 1]) * 10 + DigitValue(d[|d| - 1])
  }

  /**
   * `int(s)`: surrounding whitespace is ignored, then an optional sign and
   * the digits. None stands for the ValueError raised on anything else.
   */
  function PyInt(s: string): Option<int> {
    var t := Strip(s);
    if |t| > 0 && (t[0] == '+' || t[0] == '-') then
      if ValidDigits(t[1..]) then
        Some(if t[0] == '-' then -(DigitsNat(t[1..]) as int) else DigitsNat(t[1..]))
      else None
    else if ValidDigits(t) then Some(DigitsNat(t))
    else None
  }

  lemma {:induction false} DigitsOfNat(n: nat)
    ensures ValidDigits(NatToString(n)) && DigitsNat(NatToString(n)) == n
    decreases n
  {
    var s := NatToString(n);
    forall i | 0 <= i < |s| ensures IsDigit(s[i]) { assert s[i] in s; }
    assert IsDigit(s[0]) && IsDigit(s[|s| - 1]);
    if n < 10 {
      DigitCharValue(n);
      assert s[..0] == [];
    } else {
      var p := NatToString(n / 10);
      assert s[..|s| - 1] == p;
      DigitsOfNat(n / 10);
      DigitCharValue(n % 10);
    }
  }

  /** Printed integers carry no surrounding whitespace. */
  lemma PrintedIsStripped(n: int)
    ensures Strip(IntToString(n)) == IntToString(n)
  {
    var s := IntToString(n);
    assert s[0] in s && s[|s| - 1] in s;
    StripNoSpace(s);
  }

  /** `int(str(n)) == n`: reading back a printed integer gives it back. */
  lemma ParsePrinted(n: int)
    ensures PyInt(IntToString(n)) == Some(n)
  {
    var s := IntToString(n);
    if n < 0 {
      ParseNegative(n, s);
    } else {
      ParseNatural(n, s);
    }
  }

  /** Printed digits read back as the number. */
  lemma ParseNatural(n: int, s: string)
    requires n >= 0 && s == IntToString(n)
    ensures PyInt(s) == Some(n)
  {
    PrintedIsStripped(n);
    DigitsOfNat(n);
    ReadUnsigned(s);
  }

  /** A minus sign before printed digits reads back as the negated number. */
  lemma ParseNegative(n: int, s: string)
    requires n < 0 && s == IntToString(n)
    ensures PyInt(s) == Some(n)
  {
    PrintedIsStripped(n);
    DigitsOfNat(-n);
    ReadNegative(s, n);
  }

  /** Stripped digits read as the number they spell. */
  lemma ReadUnsigned(t: string)
    requires Strip(t) == t && ValidDigits(t)
    ensures PyInt(t) == Some(DigitsNat(t))
  {
  }

  /** A minus sign before stripped digits reads as the negated number. */
  lemma ReadNegative(t: string, n: int)
    requires n < 0 && t == IntToString(n) && Strip(t) == t
    requires ValidDigits(NatToString(-n)) && DigitsNat(NatToString(-n)) == -n
    ensures PyInt(t) == Some(n)
  {
    assert t[1..] == NatToString(-n);
  }

  // ---------------------------------------------------------------------
  // Slicing

  /** `s[:n]` with Python's rule for a negative `n`: drop that many from the end. */
  function Take<T>(s: seq<T>, n: int): (r: seq<T>)
    ensures |r| <= |s| && r == s[..|r|]
    ensures n >= 0 ==> |r| == if n < |s| then n else |s|
    ensures n < 0 ==> |r| == if |s| + n > 0 then |s| + n else 0
  {
    if n >= 0 then (if n < |s| then s[..n] else s)
    else if |s| + n > 0 then s[..|s| + n]
    else []
  }

  // ---------------------------------------------------------------------
  // JSON values and database cells

  /** A value `json.dumps` can write and `json.loads` reads back as itself. */
  datatype Json =
    | JNull
    | JBool(b: bool)
    | JInt(i: int)
    | JReal(r: real)
    | JStr(s: string)
    | JList(items: seq<Json>)
    | JObj(fields: seq<(string, Json)>)

  /** Python truthiness of a value. */
  predicate Truthy(j: Json) {
    match j
    case JNull => false
    case JBool(b) => b
    case JInt(i) => i != 0
    case JReal(r) => r != 0.0
    case JStr(s) => |s| > 0
    case JList(items) => |items| > 0
    case JObj(fields) => |fields| > 0
  }

  /** One column value of a fetched row. */
  datatype Cell = CNull | CBool(b: bool) | CInt(i: int) | CReal(r: real) | CStr(s: string)

  /** A fetched row as `dict(zip(columns, row))`: column names in order. */
  type Row = seq<(string, Cell)>

  /**
   * The result dict of a data query: `success`, and then `error`, `sql`,
   * `data` and `count` where the producing code sets them.
   */
  datatype QueryResult = QueryResult(
    success: bool,
    error: Option<string>,
    sql: Option<string>,
    data: Option<seq<Row>>,
    count: Option<int>)

  // ---------------------------------------------------------------------
  // Python dictionaries and lists as JSON values

  /** The value of the first field named `key`. */
  function Lookup(fields: seq<(string, Json)>, key: string): (r: Option<Json>)
    ensures r.Some? <==> exists i | 0 <= i < |fields| :: fields[i].0 == key
    ensures r.Some? ==> (key, r.value) in fields
    decreases |fields|
  {
    if |fields| == 0 then None
    else if fields[0].0 == key then Some(fields[0].1)
    else Lookup(fields[1..], key)
  }

  /** `d.get(key)`: None when `d` is not an object or has no such key. */
  function Field(d: Json, key: string): Option<Json> {
    if d.JObj? then Lookup(d.fields, key) else None
  }

  /** `d.get(key, default)` */
  function FieldOr(d: Json, key: string, default: Json): Json {
    Field(d, key).GetOr(default)
  }

  /** `key in d` */
  predicate Has(d: Json, key: string) {
    Field(d, key).Some?
  }

  /** The elements of a list value; anything else has none. */
  function Items(j: Json): seq<Json> {
    if j.JList? then j.items else []
  }

  /** The `(key, value)` pairs of an object value; anything else has none. */
  function Entries(j: Json): seq<(string, Json)> {
    if j.JObj? then j.fields else []
  }

  function CellJson(c: Cell): Json {
    match c
    case CNull => JNull
    case CBool(b) => JBool(b)
    case CInt(i) => JInt(i)
    case CReal(r) => JReal(r)
    case CStr(s) => JStr(s)
  }

  /** A fetched row as the dict the services return. */
  function RowJson(row: Row): (j: Json)
    ensures j.JObj? && |j.fields| == |row|
    ensures forall i | 0 <= i < |row| :: j.fields[i] == (row[i].0, CellJson(row[i].1))
  {
    JObj(seq(|row|, i requires 0 <= i < |row| => (row[i].0, CellJson(row[i].1))))
  }

  /**
   * A query result as the dict the services return: `success` first, then
   * the keys that are set, in the order the code writes them.
   */
  function ResultJson(r: QueryResult): (j: Json)
    ensures Field(j, "success") == Some(JBool(r.success))
  {
    JObj([("success", JBool(r.success))]
      + (if r.error.Some? then [("error", JStr(r.error.value))] else [])
      + (if r.sql.Some? then [("sql", JStr(r.sql.value))] else [])
      + (if r.data.Some? then [("data", JList(seq(|r.data.value|, i requires 0 <= i < |r.data.value| => RowJson(r.data.value[i]))))] else [])
      + (if r.count.Some? then [("count", JInt(r.count.value))] else []))
  }
}
