/** The Python values a webhook payload is made of once `request.json` has
    parsed it, and the few operations of Python's built-in types that the
    receiver applies to them: `dict.get`, truthiness, `str()` as used by an
    f-string, `str.startswith` and `str.replace`. */
module PyValues {

  datatype Option<+T> = None | Some(value: T)

  /** A parsed JSON document. An object keeps its members in the order the
      parser produced them; numbers are integers. */
  datatype Json =
    | JNull
    | JBool(b: bool)
    | JInt(n: int)
    | JStr(s: string)
    | JArray(items: seq<Json>)
    | JObject(members: seq<(string, Json)>)

  /** The outcome of a piece of Python code that may raise an exception. */
  datatype Py<+T> = Value(v: T) | Raised {
    predicate IsFailure() { Raised? }
    function PropagateFailure<U>(): Py<U> requires Raised? { Raised }
    function Extract(): T requires Value? { v }
  }

  /** The value stored under `key`, if any. */
  function Lookup(members: seq<(string, Json)>, key: string): (r: Option<Json>)
    ensures r.Some? <==> exists i :: 0 <= i < |members| && members[i].0 == key
    ensures r.Some? ==> exists i :: 0 <= i < |members| && members[i] == (key, r.value)
  {
    if members == [] then None
    else if members[0].0 == key then Some(members[0].1)
    else
      var r := Lookup(members[1..], key);
      assert forall i :: 1 <= i < |members| ==> members[i] == members[1..][i - 1];
      r
  }

  /** The first member under `key` is the one at `i`. */
  lemma {:induction false} LookupAt(ms: seq<(string, Json)>, i: nat, key: string)
    requires i < |ms| && ms[i].0 == key
    requires forall j :: 0 <= j < i ==> ms[j].0 != key
    ensures Lookup(ms, key) == Some(ms[i].1)
    decreases i
  {
    if i > 0 {
      LookupAt(ms[1..], i - 1, key);
    }
  }

  /** `key in d` for a dict `d`; false for any other value. */
  predicate HasKey(d: Json, key: string) {
    d.JObject? && Lookup(d.members, key).Some?
  }

  /** `d.get(key, default)`: the stored value, or `default` when the key is
      absent; any value that is not a dict has no `get` and raises. */
  function Get(d: Json, key: string, default: Json): (r: Py<Json>)
    ensures r.Raised? <==> !d.JObject?
    ensures HasKey(d, key) ==> r == Value(Lookup(d.members, key).value)
    ensures d.JObject? && !HasKey(d, key) ==> r == Value(default)
  {
    match d
    case JObject(ms) => Value(match Lookup(ms, key) case Some(v) => v case None => default)
    case _ => Raised
  }

  /** Python truthiness of a JSON value. */
  predicate Truthy(j: Json) {
    match j
    case JNull => false
    case JBool(b) => b
    case JInt(n) => n != 0
    case JStr(s) => s != ""
    case JArray(items) => items != []
    case JObject(ms) => ms != []
  }

  // ---------------------------------------------------------------------
  // Text

  function DigitChar(d: int): (c: char)
    requires 0 <= d < 10
    ensures '0' <= c <= '9' && c as int - '0' as int == d
  {
    ('0' as int + d) as char
  }

  predicate IsDigits(s: string) {
    forall i :: 0 <= i < |s| ==> '0' <= s[i] <= '9'
  }

  /** The number an all-digit text denotes. */
  function DigitsValue(s: string): nat
    requires IsDigits(s)
  {
    if s == [] then 0
    else 10 * DigitsValue(s[..|s| - 1]) + (s[|s| - 1] as int - '0' as int)
  }

  /** `str(n)` for a natural number: its decimal digits, most significant
      first, which read back as `n` and have no leading zero. */
  function NatToDecimal(n: nat): (s: string)
    ensures |s| >= 1 && IsDigits(s)
    ensures DigitsValue(s) == n
    ensures n >= 10 ==> s[0] != '0'
    ensures s[0] == '0' ==> s == "0"
    decreases n
  {
    if n < 10 then [DigitChar(n)]
    else
      var s := NatToDecimal(n / 10) + [DigitChar(n % 10)];
      assert s[..|s| - 1] == NatToDecimal(n / 10);
      s
  }

  /** `str(n)` for an `int`. */
  function IntToDecimal(n: int): string {
    if n < 0 then "-" + NatToDecimal(-n) else NatToDecimal(n)
  }

  function HexDigit(d: int): char
    requires 0 <= d < 16
  {
    if d < 10 then DigitChar(d) else ('a' as int + d - 10) as char
  }

  /** The escaped form of one character inside a quoted `repr` of a `str`
      whose delimiter is `quote`. */
  function EscapeChar(c: char, quote: char): string {
    if c == quote || c == '\\' then ['\\', c]
    else if c == '\t' then "\\t"
    else if c == '\n' then "\\n"
    else if c == '\r' then "\\r"
    else if c as int < 0x20 || c as int == 0x7f then
      ['\\', 'x', HexDigit(c as int / 16), HexDigit(c as int % 16)]
    else [c]
  }

  function EscapeAll(s: string, quote: char): string {
    if s == [] then [] else EscapeChar(s[0], quote) + EscapeAll(s[1..], quote)
  }

  /** `repr(s)` for a `str`: single quotes unless the text holds a single
      quote and no double quote. */
  function StrRepr(s: string): (r: string)
    ensures |r| >= 2
  {
    var quote := if '\'' in s && '"' !in s then '"' else '\'';
    [quote] + EscapeAll(s, quote) + [quote]
  }

  /** `repr(j)`: how a value is written inside a list or a dict. */
  function Repr(j: Json): string
    decreases j, 1
  {
    match j
    case JNull => "None"
    case JBool(b) => if b then "True" else "False"
    case JInt(n) => IntToDecimal(n)
    case JStr(s) => StrRepr(s)
    case JArray(items) => "[" + ReprItems(j, items) + "]"
    case JObject(ms) => "{" + ReprMembers(j, ms) + "}"
  }

  function ReprItems(ghost parent: Json, items: seq<Json>): string
    requires forall k :: 0 <= k < |items| ==> items[k] < parent
    decreases parent, 0, |items|
  {
    if items == [] then ""
    else if |items| == 1 then Repr(items[0])
    else Repr(items[0]) + ", " + ReprItems(parent, items[1..])
  }

  function ReprMembers(ghost parent: Json, ms: seq<(string, Json)>): string
    requires forall k :: 0 <= k < |ms| ==> ms[k].1 < parent
    decreases parent, 0, |ms|
  {
    if ms == [] then ""
    else
      var first := StrRepr(ms[0].0) + ": " + Repr(ms[0].1);
      if |ms| == 1 then first else first + ", " + ReprMembers(parent, ms[1..])
  }

  /** `str(j)`, which is what an f-string substitutes for `{j}`: a `str` is
      itself, every other value is its `repr`. */
  function PyStr(j: Json): (r: string)
    ensures j.JStr? ==> r == j.s
    ensures j == JNull ==> r == "None"
  {
    if j.JStr? then j.s else Repr(j)
  }

  /** `s.startswith(prefix)`. */
  predicate StartsWith(s: string, prefix: string) {
    |prefix| <= |s| && s[..|prefix|] == prefix
  }

  /** `pat` occurs in `s` starting at position `i`. */
  predicate OccursAt(s: string, pat: string, i: int) {
    0 <= i && i + |pat| <= |s| && s[i..i + |pat|] == pat
  }

  /** `s.replace(pat, rep)` for a non-empty `pat`: scanning left to right,
      every occurrence that does not overlap an earlier replaced one is
      replaced. */
  function ReplaceAll(s: string, pat: string, rep: string): string
    requires pat != []
    decreases |s|
  {
    if |s| < |pat| then s
    else if s[..|pat|] == pat then rep + ReplaceAll(s[|pat|..], pat, rep)
    else [s[0]] + ReplaceAll(s[1..], pat, rep)
  }

  /** A text in which `pat` never occurs is left as it is. */
  lemma {:induction false} ReplaceAbsent(s: string, pat: string, rep: string)
    requires pat != []
    requires forall i :: 0 <= i <= |s| - |pat| ==> !OccursAt(s, pat, i)
    ensures ReplaceAll(s, pat, rep) == s
    decreases |s|
  {
    if |s| >= |pat| {
      assert !OccursAt(s, pat, 0);
      assert s[0..|pat|] == s[..|pat|];
      forall i | 0 <= i <= |s[1..]| - |pat|
        ensures !OccursAt(s[1..], pat, i)
      {
        assert !OccursAt(s, pat, i + 1);
        assert s[1..][i..i + |pat|] == s[i + 1..i + 1 + |pat|];
      }
      ReplaceAbsent(s[1..], pat, rep);
      assert [s[0]] + s[1..] == s;
    }
  }

  /** Replacing a single character distributes over a text that ends in it. */
  lemma {:induction false} ReplaceCharAtEnd(s: string, c: char, rep: string)
    requires c !in s
    ensures ReplaceAll(s + [c], [c], rep) == s + rep
    decreases |s|
  {
    if s == [] {
      assert ([] + [c])[1..] == [];
    } else {
      assert (s + [c])[..1] == [s[0]] != [c];
      assert (s + [c])[1..] == s[1..] + [c];
      ReplaceCharAtEnd(s[1..], c, rep);
      assert [s[0]] + (s[1..] + rep) == s + rep;
    }
  }

  /** A text that starts with `pat` loses that first occurrence, and the
      rest is replaced in its turn. */
  lemma ReplaceLeading(pat: string, rest: string, rep: string)
    requires pat != []
    ensures ReplaceAll(pat + rest, pat, rep) == rep + ReplaceAll(rest, pat, rep)
  {
    assert (pat + rest)[..|pat|] == pat;
    assert (pat + rest)[|pat|..] == rest;
  }
}
