/**
 * Decoded JSON values, as `json.loads` hands them to Python code, and the
 * Python conversions the core applies to them: `str(v)`, `int(v)`,
 * `float(v)`, `repr(s)` of a string and `json.dumps` of a string.
 * Decoding itself is not modelled: callers receive the decoded value, or
 * None where `json.loads` raised.
 */
module Json {
  import opened Wrappers
  import opened Text
  import opened Decimals

  datatype Json =
    | JNull
    | JBool(b: bool)
    | JInt(i: int)
    | JFloat(d: Decimal)
    | JStr(s: string)
    | JArr(items: seq<Json>)
    | JObj(fields: seq<(string, Json)>)

  /** `obj.get(key)`: the last binding of `key` wins, as in a decoded dict. */
  function Get(fields: seq<(string, Json)>, key: string): (r: Option<Json>)
    ensures r.Some? <==> exists i :: 0 <= i < |fields| && fields[i].0 == key
    ensures r.Some? ==> exists i :: 0 <= i < |fields| && fields[i] == (key, r.value)
  {
    if |fields| == 0 then None
    else if fields[|fields| - 1].0 == key then Some(fields[|fields| - 1].1)
    else
      var r := Get(fields[..|fields| - 1], key);
      assert forall i :: 0 <= i < |fields| - 1 ==> fields[..|fields| - 1][i] == fields[i];
      r
  }

  /** A binding added last is the one `Get` finds for its key; other keys see the earlier bindings. */
  lemma GetPush(fields: seq<(string, Json)>, k: string, v: Json, key: string)
    ensures Get(fields + [(k, v)], key) == if k == key then Some(v) else Get(fields, key)
  {
    assert (fields + [(k, v)])[..|fields|] == fields;
  }

  /** `Get` on an object of two bindings. */
  lemma GetPair(k1: string, v1: Json, k2: string, v2: Json, key: string)
    ensures Get([(k1, v1), (k2, v2)], key) == if key == k2 then Some(v2) else if key == k1 then Some(v1) else None
  {
    assert [(k1, v1), (k2, v2)] == [(k1, v1)] + [(k2, v2)];
    assert [] + [(k1, v1)] == [(k1, v1)];
    GetPush([(k1, v1)], k2, v2, key);
    GetPush([], k1, v1, key);
  }

  /** `obj.get(key, default)` */
  function GetOr(fields: seq<(string, Json)>, key: string, default: Json): Json
  {
    match Get(fields, key)
    case Some(v) => v
    case None => default
  }

  // ---------------------------------------------------------------------
  // repr() of a string, json.dumps of a string
  // ---------------------------------------------------------------------

  function HexDigit(n: nat): char
    requires n < 16
  {
    if n < 10 then ('0' as int + n) as char else ('a' as int + n - 10) as char
  }

  /** `n` as `width` lower-case hexadecimal digits. */
  function Hex(n: nat, width: nat): (r: string)
    ensures |r| == width
  {
    if width == 0 then "" else Hex(n / 16, width - 1) + [HexDigit(n % 16)]
  }

  /** Python picks double quotes only when the text has a `'` and no `"`. */
  function ReprQuote(s: string): char
  {
    if '\'' in s && '"' !in s then '"' else '\''
  }

  /** One character as it appears inside `repr()` quoted with `q`. */
  function ReprChar(c: char, q: char): string
  {
    if c == q || c == '\\' then ['\\', c]
    else if c == '\t' then "\\t"
    else if c == '\n' then "\\n"
    else if c == '\r' then "\\r"
    else if c < ' ' || (0x7f <= c as int <= 0xa0) then "\\x" + Hex(c as int, 2)
    else [c]
  }

  function ReprBody(s: string, q: char): string
  {
    if |s| == 0 then "" else ReprChar(s[0], q) + ReprBody(s[1..], q)
  }

  /** `repr(s)` of a string. */
  function Repr(s: string): (r: string)
    ensures |r| >= 2 && r[0] == r[|r| - 1] == ReprQuote(s)
  {
    var q := ReprQuote(s);
    [q] + ReprBody(s, q) + [q]
  }

  /** Text with no quote, backslash or control character is written as it is. */
  predicate PlainText(s: string)
  {
    forall i :: 0 <= i < |s| ==>
      s[i] != '\'' && s[i] != '"' && s[i] != '\\' && ' ' <= s[i] && !(0x7f <= s[i] as int <= 0xa0)
  }

  /** `repr` of plain text is the text between single quotes. */
  lemma {:induction false} ReprPlain(s: string)
    requires PlainText(s)
    ensures Repr(s) == "'" + s + "'"
  {
    ReprBodyPlain(s, '\'');
  }

  lemma {:induction false} ReprBodyPlain(s: string, q: char)
    requires PlainText(s) && (q == '\'' || q == '"')
    ensures ReprBody(s, q) == s
  {
    if |s| > 0 {
      ReprBodyPlain(s[1..], q);
    }
  }

  /** One character as `json.dumps(..., ensure_ascii=False)` writes it. */
  function JsonChar(c: char): string
  {
    if c == '"' then "\\\""
    else if c == '\\' then "\\\\"
    else if c == '\n' then "\\n"
    else if c == '\r' then "\\r"
    else if c == '\t' then "\\t"
    else if c as int == 8 then "\\b"
    else if c as int == 12 then "\\f"
    else if c < ' ' then "\\u" + Hex(c as int, 4)
    else [c]
  }

  function JsonBody(s: string): string
  {
    if |s| == 0 then "" else JsonChar(s[0]) + JsonBody(s[1..])
  }

  /** `json.dumps(s, ensure_ascii=False)` of a string. */
  function JsonQuote(s: string): (r: string)
    ensures |r| >= 2 && r[0] == '"' && r[|r| - 1] == '"'
  {
    "\"" + JsonBody(s) + "\""
  }

  lemma {:induction false} HexIsDigits(n: nat, width: nat)
    ensures forall i :: 0 <= i < width ==> Hex(n, width)[i] != '"'
  {
    if width > 0 {
      HexIsDigits(n / 16, width - 1);
      assert Hex(n, width) == Hex(n / 16, width - 1) + [HexDigit(n % 16)];
    }
  }

  lemma JsonCharEscapesQuote(c: char)
    ensures forall i :: 0 <= i < |JsonChar(c)| && JsonChar(c)[i] == '"' ==> i > 0 && JsonChar(c)[i - 1] == '\\'
  {
    if c != '"' && c != '\\' && c != '\n' && c != '\r' && c != '\t' && c as int != 8 && c as int != 12 && c < ' ' {
      HexIsDigits(c as int, 4);
      assert JsonChar(c) == "\\u" + Hex(c as int, 4);
    }
  }

  /** Every quote and backslash of the text is escaped in the dump, so no raw `"` appears inside. */
  lemma {:induction false} JsonBodyNoBareQuote(s: string)
    ensures forall i :: 0 <= i < |JsonBody(s)| && JsonBody(s)[i] == '"' ==> i > 0 && JsonBody(s)[i - 1] == '\\'
  {
    if |s| > 0 {
      JsonBodyNoBareQuote(s[1..]);
      var h := JsonChar(s[0]);
      var t := JsonBody(s[1..]);
      assert JsonBody(s) == h + t;
      JsonCharEscapesQuote(s[0]);
      forall i | 0 <= i < |h + t| && (h + t)[i] == '"' ensures i > 0 && (h + t)[i - 1] == '\\' {
        if i >= |h| {
          assert (h + t)[i] == t[i - |h|];
          if i - |h| > 0 {
            assert (h + t)[i - 1] == t[i - |h| - 1];
          } else {
            assert false;
          }
        }
      }
    }
  }

  // ---------------------------------------------------------------------
  // str(), int(), float() of decoded values
  // ---------------------------------------------------------------------

  /** `str(v)`; strings are written as they are, nested strings with `repr`. */
  function PyStr(v: Json): string
  {
    match v
    case JStr(s) => s
    case _ => ReprValue(v)
  }

  function ReprValue(v: Json): string
    decreases v, 1
  {
    match v
    case JNull => "None"
    case JBool(b) => if b then "True" else "False"
    case JInt(i) => IntToString(i)
    case JFloat(d) => Decimals.Repr(d)
    case JStr(s) => Repr(s)
    case JArr(items) => "[" + ReprItems(v, items) + "]"
    case JObj(fields) => "{" + ReprFields(v, fields) + "}"
  }

  function ReprItems(parent: Json, items: seq<Json>): string
    requires parent.JArr? && items <= parent.items
    decreases parent, 0, |items|
  {
    if |items| == 0 then ""
    else
      var init := items[..|items| - 1];
      var last := items[|items| - 1];
      assert last in parent.items;
      var tail := ReprValue(last);
      if |init| == 0 then tail else ReprItems(parent, init) + ", " + tail
  }

  function ReprFields(parent: Json, fields: seq<(string, Json)>): string
    requires parent.JObj? && fields <= parent.fields
    decreases parent, 0, |fields|
  {
    if |fields| == 0 then ""
    else
      var init := fields[..|fields| - 1];
      var last := fields[|fields| - 1];
      assert last in parent.fields;
      var tail := Repr(last.0) + ": " + ReprValue(last.1);
      if |init| == 0 then tail else ReprFields(parent, init) + ", " + tail
  }

  /** `json.dumps(v, ensure_ascii=False, separators=(",", ":"))`: the compact JSON text of `v`. */
  function Dumps(v: Json): string
    decreases v, 1
  {
    match v
    case JNull => "null"
    case JBool(b) => if b then "true" else "false"
    case JInt(i) => IntToString(i)
    case JFloat(d) => Decimals.Repr(d)
    case JStr(s) => JsonQuote(s)
    case JArr(items) => "[" + DumpsItems(v, items) + "]"
    case JObj(fields) => "{" + DumpsFields(v, fields) + "}"
  }

  function DumpsItems(parent: Json, items: seq<Json>): string
    requires parent.JArr? && items <= parent.items
    decreases parent, 0, |items|
  {
    if |items| == 0 then ""
    else
      var init := items[..|items| - 1];
      var last := items[|items| - 1];
      assert last in parent.items;
      var tail := Dumps(last);
      if |init| == 0 then tail else DumpsItems(parent, init) + "," + tail
  }

  function DumpsFields(parent: Json, fields: seq<(string, Json)>): string
    requires parent.JObj? && fields <= parent.fields
    decreases parent, 0, |fields|
  {
    if |fields| == 0 then ""
    else
      var init := fields[..|fields| - 1];
      var last := fields[|fields| - 1];
      assert last in parent.fields;
      var tail := JsonQuote(last.0) + ":" + Dumps(last.1);
      if |init| == 0 then tail else DumpsFields(parent, init) + "," + tail
  }

  /** `int(v)`; None where Python raises TypeError or ValueError. */
  function PyInt(v: Json): Option<int>
  {
    match v
    case JBool(b) => Some(if b then 1 else 0)
    case JInt(i) => Some(i)
    case JFloat(d) => Some(Trunc(d))
    case JStr(s) => ParseInt(s)
    case _ => None
  }

  /** `float(v)`; None where Python raises TypeError or ValueError. */
  function PyFloat(v: Json): Option<Decimal>
  {
    match v
    case JBool(b) => Some(FromInt(if b then 1 else 0))
    case JInt(i) => Some(FromInt(i))
    case JFloat(d) => Some(d)
    case JStr(s) => ParseFloat(s)
    case _ => None
  }

  /** `int(float(v))`, as used for coordinates. */
  function PyIntOfFloat(v: Json): (r: Option<int>)
    ensures v.JInt? ==> r == Some(v.i)
  {
    match PyFloat(v)
    case None => None
    case Some(d) => Some(Trunc(d))
  }
}
