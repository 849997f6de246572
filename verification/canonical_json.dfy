/** Canonical JSON text (`json.dumps` with `ensure_ascii=False`, compact separators and
    sorted keys) and the reader that inverts it (`json.loads`). */
module CanonicalJson {
  import opened Wrappers
  import opened Orders
  import opened Decimals

  /** What `json.loads` produces, floats aside.  An object is a finite map: the order in
      which a Python dictionary was filled is not part of its value. */
  datatype Json =
    | Null
    | Bool(b: bool)
    | Int(n: int)
    | Str(s: string)
    | Arr(items: seq<Json>)
    | Obj(fields: map<string, Json>)

  // ------------------------------------------------------------------
  // Writing

  function HexDigit(n: nat): char
    requires n < 16
  {
    if n < 10 then '0' + n as char else 'a' + (n - 10) as char
  }

  /** The escapes of section 7 of RFC 8259 that `json.dumps` emits. */
  function EscapeChar(c: char): string {
    if c == '\"' then "\\\""
    else if c == '\\' then "\\\\"
    else if c == '\n' then "\\n"
    else if c == '\r' then "\\r"
    else if c == '\t' then "\\t"
    else if c as int == 8 then "\\b"
    else if c as int == 12 then "\\f"
    else if c as int < 32 then "\\u00" + [HexDigit(c as int / 16), HexDigit(c as int % 16)]
    else [c]
  }

  function Escape(s: string): string {
    if s == "" then "" else EscapeChar(s[0]) + Escape(s[1..])
  }

  function Quote(s: string): string { "\"" + Escape(s) + "\"" }

  function IntText(n: int): string {
    if n < 0 then "-" + Print(-n) else Print(n)
  }

  function Dump(j: Json): string
    decreases j, 1
  {
    match j
    case Null => "null"
    case Bool(b) => if b then "true" else "false"
    case Int(n) => IntText(n)
    case Str(s) => Quote(s)
    case Arr(items) => "[" + ArrBody(items)
    case Obj(_) => "{" + ObjBody(j)
  }

  function ArrBody(items: seq<Json>): string
    decreases items, 1
  {
    if items == [] then "]" else Dump(items[0]) + DumpItems(items[1..])
  }

  /** The items after the first, and the closing bracket. */
  function DumpItems(items: seq<Json>): string
    decreases items, 0
  {
    if items == [] then "]" else "," + Dump(items[0]) + DumpItems(items[1..])
  }

  function ObjBody(j: Json): string
    requires j.Obj?
    decreases j, 0
  {
    var keys := SortedTexts(j.fields.Keys);
    if keys == [] then "}" else DumpField(j, keys[0]) + DumpFields(j, keys[1..])
  }

  function DumpField(j: Json, key: string): string
    requires j.Obj? && key in j.fields
    decreases j, 0, 0
  {
    Quote(key) + ":" + Dump(j.fields[key])
  }

  /** The fields after the first, and the closing brace. */
  function DumpFields(j: Json, keys: seq<string>): string
    requires j.Obj? && forall k <- keys :: k in j.fields
    decreases j, 0, 1 + |keys|
  {
    if keys == [] then "}" else "," + DumpField(j, keys[0]) + DumpFields(j, keys[1..])
  }

  // ------------------------------------------------------------------
  // Reading.  Every reader returns what it read and the text that follows.

  function ReadLiteral(t: string, literal: string, j: Json): (r: Option<(Json, string)>)
    requires literal != ""
    ensures r.Some? ==> |r.value.1| < |t|
  {
    if literal <= t then Some((j, t[|literal|..])) else None
  }

  function DigitRun(t: string): (n: nat)
    ensures n <= |t| && AllDigits(t[..n])
    ensures n < |t| ==> !IsDigit(t[n])
  {
    if t == "" || !IsDigit(t[0]) then 0
    else
      var n := DigitRun(t[1..]);
      assert t[..n + 1] == [t[0]] + t[1..][..n];
      1 + n
  }

  /** `-?(0|[1-9][0-9]*)`, at the start of the text. */
  function ReadNat(t: string): (r: Option<(nat, string)>)
    ensures r.Some? ==> |r.value.1| < |t|
  {
    var n := DigitRun(t);
    if n == 0 then None
    else if t[0] == '0' then Some((0, t[1..]))
    else Some((Value(t[..n]), t[n..]))
  }

  function ReadInt(t: string): (r: Option<(Json, string)>)
    ensures r.Some? ==> |r.value.1| < |t|
  {
    if t != "" && t[0] == '-' then
      var (n, rest) :- ReadNat(t[1..]);
      Some((Int(0 - n), rest))
    else
      var (n, rest) :- ReadNat(t);
      Some((Int(n), rest))
  }

  function HexValue(c: char): Option<nat> {
    if '0' <= c <= '9' then Some(c as int - '0' as int)
    else if 'a' <= c <= 'f' then Some(10 + c as int - 'a' as int)
    else if 'A' <= c <= 'F' then Some(10 + c as int - 'A' as int)
    else None
  }

  /** The character of a `\uXXXX` escape; surrogates have no character of their own. */
  function ReadHex4(t: string): Option<char>
    requires |t| == 4
  {
    var a :- HexValue(t[0]);
    var b :- HexValue(t[1]);
    var c :- HexValue(t[2]);
    var d :- HexValue(t[3]);
    var code := a * 4096 + b * 256 + c * 16 + d;
    if 0 <= code < 0xD800 || 0xE000 <= code <= 0xFFFF then Some(code as char) else None
  }

  /** One character of a string body, escaped or not; `None` at a malformed escape. */
  function ReadChar(t: string): (r: Option<(char, string)>)
    requires t != ""
    ensures r.Some? ==> |r.value.1| < |t|
  {
    if t[0] != '\\' then
      if t[0] as int < 32 then None else Some((t[0], t[1..]))
    else if |t| < 2 then None
    else match t[1]
      case '\"' => Some(('\"', t[2..]))
      case '\\' => Some(('\\', t[2..]))
      case '/' => Some(('/', t[2..]))
      case 'b' => Some((8 as char, t[2..]))
      case 'f' => Some((12 as char, t[2..]))
      case 'n' => Some(('\n', t[2..]))
      case 'r' => Some(('\r', t[2..]))
      case 't' => Some(('\t', t[2..]))
      case 'u' =>
        if |t| < 6 then None else
        var c :- ReadHex4(t[2..6]);
        Some((c, t[6..]))
      case _ => None
  }

  /** A string body up to and including its closing quote. */
  function ReadString(t: string): (r: Option<(string, string)>)
    ensures r.Some? ==> |r.value.1| < |t|
    decreases |t|
  {
    if t == "" then None
    else if t[0] == '\"' then Some(("", t[1..]))
    else
      var (c, rest) :- ReadChar(t);
      var (s, after) :- ReadString(rest);
      Some(([c] + s, after))
  }

  function Read(t: string): (r: Option<(Json, string)>)
    ensures r.Some? ==> |r.value.1| < |t|
    decreases |t|, 1
  {
    if t == "" then None
    else if t[0] == '[' then ReadArr(t[1..])
    else if t[0] == '{' then ReadObj(t[1..])
    else if t[0] == '\"' then
      var (s, rest) :- ReadString(t[1..]);
      Some((Str(s), rest))
    else ReadScalar(t)
  }

  function ReadScalar(t: string): (r: Option<(Json, string)>)
    ensures r.Some? ==> |r.value.1| < |t|
  {
    if "n" <= t then ReadLiteral(t, "null", Null)
    else if "t" <= t then ReadLiteral(t, "true", Bool(true))
    else if "f" <= t then ReadLiteral(t, "false", Bool(false))
    else ReadInt(t)
  }

  /** An array, after its opening bracket. */
  function ReadArr(t: string): (r: Option<(Json, string)>)
    ensures r.Some? ==> |r.value.1| < |t|
    decreases |t|, 3
  {
    if "]" <= t then Some((Arr([]), t[1..])) else
    var (first, rest) :- Read(t);
    var (others, after) :- ReadItems(rest);
    Some((Arr([first] + others), after))
  }

  /** An object, after its opening brace. */
  function ReadObj(t: string): (r: Option<(Json, string)>)
    ensures r.Some? ==> |r.value.1| < |t|
    decreases |t|, 3
  {
    if "}" <= t then Some((Obj(map[]), t[1..])) else
    var (first, rest) :- ReadField(t);
    var (others, after) :- ReadFields(rest);
    Some((Obj(map[first.0 := first.1] + others), after))
  }

  function ReadItems(t: string): (r: Option<(seq<Json>, string)>)
    ensures r.Some? ==> |r.value.1| < |t|
    decreases |t|, 0
  {
    if t == "" then None
    else if t[0] == ']' then Some(([], t[1..]))
    else if t[0] == ',' then
      var (first, rest) :- Read(t[1..]);
      var (others, after) :- ReadItems(rest);
      Some(([first] + others, after))
    else None
  }

  function ReadField(t: string): (r: Option<((string, Json), string)>)
    ensures r.Some? ==> |r.value.1| < |t|
    decreases |t|, 2
  {
    if t == "" || t[0] != '\"' then None else
    var (key, rest) :- ReadString(t[1..]);
    if rest == "" || rest[0] != ':' then None else
    var (j, after) :- Read(rest[1..]);
    Some(((key, j), after))
  }

  /** A repeated key keeps its last value, as in Python. */
  function ReadFields(t: string): (r: Option<(map<string, Json>, string)>)
    ensures r.Some? ==> |r.value.1| < |t|
    decreases |t|, 0
  {
    if t == "" then None
    else if t[0] == '}' then Some((map[], t[1..]))
    else if t[0] == ',' then
      var (first, rest) :- ReadField(t[1..]);
      var (others, after) :- ReadFields(rest);
      Some((map[first.0 := first.1] + others, after))
    else None
  }

  /** `json.loads`: the whole text must be one value. */
  function Loads(t: string): Option<Json> {
    var (j, rest) :- Read(t);
    if rest == "" then Some(j) else None
  }

  // ------------------------------------------------------------------
  // Reading inverts writing

  lemma ReadsEscapedChar(c: char, rest: string)
    ensures EscapeChar(c) != "" && EscapeChar(c)[0] != '\"'
    ensures ReadChar(EscapeChar(c) + rest) == Some((c, rest))
  {
    var t := EscapeChar(c) + rest;
    assert t[|EscapeChar(c)|..] == rest;
    if c as int < 32 && |EscapeChar(c)| == 6 {
      var n := c as int;
      assert t[2..6] == ['0', '0', HexDigit(n / 16), HexDigit(n % 16)];
      assert HexValue(HexDigit(n / 16)) == Some(n / 16);
      assert HexValue(HexDigit(n % 16)) == Some(n % 16);
    }
  }

  lemma {:induction false} ReadsEscaped(s: string, rest: string)
    ensures ReadString(Escape(s) + "\"" + rest) == Some((s, rest))
  {
    var t := Escape(s) + "\"" + rest;
    if s == "" {
      assert t == "\"" + rest;
    } else {
      var tail := Escape(s[1..]) + "\"" + rest;
      assert t == EscapeChar(s[0]) + tail;
      ReadsEscapedChar(s[0], tail);
      ReadsEscaped(s[1..], rest);
      assert s == [s[0]] + s[1..];
    }
  }

  lemma {:induction false} DigitRunOf(digits: string, rest: string)
    requires AllDigits(digits) && (rest == "" || !IsDigit(rest[0]))
    ensures DigitRun(digits + rest) == |digits|
  {
    var t := digits + rest;
    if digits == "" {
      assert t == rest;
    } else {
      assert t[1..] == digits[1..] + rest;
      DigitRunOf(digits[1..], rest);
    }
  }

  lemma ReadsNat(n: nat, rest: string)
    requires rest == "" || !IsDigit(rest[0])
    ensures ReadNat(Print(n) + rest) == Some((n, rest))
  {
    PrintValue(n);
    DigitRunOf(Print(n), rest);
    var t := Print(n) + rest;
    assert t[..|Print(n)|] == Print(n);
    assert t[|Print(n)|..] == rest;
    assert Value("0") == 0;
  }

  lemma ReadsSigned(digits: string, n: nat, rest: string)
    requires digits != "" && IsDigit(digits[0])
    requires ReadNat(digits + rest) == Some((n, rest))
    ensures ReadInt(digits + rest) == Some((Int(n), rest))
    ensures ReadInt("-" + digits + rest) == Some((Int(0 - n), rest))
  {
    assert (digits + rest)[0] == digits[0];
    assert ("-" + digits + rest)[1..] == digits + rest;
  }

  lemma ReadsInt(n: int, rest: string)
    requires rest == "" || !IsDigit(rest[0])
    ensures IntText(n) != "" && (IntText(n)[0] == '-' || IsDigit(IntText(n)[0]))
    ensures ReadInt(IntText(n) + rest) == Some((Int(n), rest))
  {
    var m: nat := if n < 0 then -n else n;
    PrintValue(m);
    ReadsNat(m, rest);
    ReadsSigned(Print(m), m, rest);
  }

  lemma ReadsLiteral(literal: string, j: Json, rest: string)
    requires literal != ""
    ensures ReadLiteral(literal + rest, literal, j) == Some((j, rest))
  {
    assert (literal + rest)[|literal|..] == rest;
  }

  lemma ReadsScalar(j: Json, rest: string)
    requires j.Null? || j.Bool? || j.Int?
    requires rest == "" || !IsDigit(rest[0])
    ensures Dump(j) != "" && Dump(j)[0] !in "]}[{\""
    ensures Read(Dump(j) + rest) == Some((j, rest))
  {
    var t := Dump(j) + rest;
    assert ReadScalar(t) == Some((j, rest)) by {
      if j.Int? {
        ReadsInt(j.n, rest);
      } else {
        ReadsLiteral(Dump(j), j, rest);
      }
    }
    assert Dump(j) != "" && Dump(j)[0] !in "[{\"" by {
      if j.Int? { ReadsInt(j.n, rest); }
    }
  }

  /** `Read` dispatches on the first character. */
  lemma ReadStarts(c: char, body: string, rest: string)
    ensures ([c] + body)[0] == c
    ensures c == '[' ==> Read([c] + body + rest) == ReadArr(body + rest)
    ensures c == '{' ==> Read([c] + body + rest) == ReadObj(body + rest)
  {
    assert ([c] + body + rest)[1..] == body + rest;
  }

  lemma ReadsQuoted(s: string, rest: string)
    ensures Read(Quote(s) + rest) == Some((Str(s), rest))
  {
    ReadsEscaped(s, rest);
    assert (Quote(s) + rest)[1..] == Escape(s) + "\"" + rest;
  }

  lemma {:induction false} ReadsDump(j: Json, rest: string)
    requires rest == "" || !IsDigit(rest[0])
    ensures Dump(j) != "" && Dump(j)[0] !in "]}"
    ensures Read(Dump(j) + rest) == Some((j, rest))
    decreases j, 2
  {
    if j.Str? {
      ReadsQuoted(j.s, rest);
    } else if j.Arr? {
      ReadsArr(j.items, rest);
      ReadStarts('[', ArrBody(j.items), rest);
    } else if j.Obj? {
      ReadsObj(j, rest);
      ReadStarts('{', ObjBody(j), rest);
    } else {
      ReadsScalar(j, rest);
    }
  }

  lemma {:induction false} ReadsArr(items: seq<Json>, rest: string)
    ensures ReadArr(ArrBody(items) + rest) == Some((Arr(items), rest))
    decreases items, 1
  {
    if items == [] {
      assert ("]" + rest)[1..] == rest;
    } else {
      var tail := DumpItems(items[1..]) + rest;
      assert ArrBody(items) + rest == Dump(items[0]) + tail;
      ReadsItems(items[1..], rest);
      ReadsDump(items[0], tail);
      assert [items[0]] + items[1..] == items;
    }
  }

  lemma ReadObjSteps(t: string, first: (string, Json), rest: string, others: map<string, Json>, after: string)
    requires t != "" && t[0] != '}'
    requires ReadField(t) == Some((first, rest)) && ReadFields(rest) == Some((others, after))
    ensures ReadObj(t) == Some((Obj(map[first.0 := first.1] + others), after))
  {
  }

  ghost predicate KeyList(fields: map<string, Json>, keys: seq<string>) {
    forall k :: k in keys <==> k in fields
  }

  lemma FieldsAfterFirst(fields: map<string, Json>, keys: seq<string>)
    requires KeyList(fields, keys) && keys != []
    ensures forall k <- keys[1..] :: k in fields
    ensures map[keys[0] := fields[keys[0]]] + (map k | k in keys[1..] :: fields[k]) == fields
  {
    var all := map[keys[0] := fields[keys[0]]] + (map k | k in keys[1..] :: fields[k]);
    assert forall k :: k in keys <==> k == keys[0] || k in keys[1..];
    assert all.Keys == fields.Keys;
  }

  lemma {:induction false} ReadsObj(j: Json, rest: string)
    requires j.Obj?
    ensures ReadObj(ObjBody(j) + rest) == Some((j, rest))
    decreases j, 1
  {
    hide DumpField, DumpFields, ReadField, ReadFields, Dump, SortedTexts;
    var keys := SortedTexts(j.fields.Keys);
    assert KeyList(j.fields, keys);
    if keys == [] {
      assert j.fields == map[];
      assert ("}" + rest)[1..] == rest;
    } else {
      FieldsAfterFirst(j.fields, keys);
      var tail := DumpFields(j, keys[1..]) + rest;
      assert ObjBody(j) + rest == DumpField(j, keys[0]) + tail;
      ReadsFields(j, keys[1..], rest);
      ReadsField(j, keys[0], tail);
      ReadObjSteps(ObjBody(j) + rest, (keys[0], j.fields[keys[0]]), tail, map k | k in keys[1..] :: j.fields[k], rest);
    }
  }

  lemma {:induction false} ReadsItems(items: seq<Json>, rest: string)
    ensures DumpItems(items) != "" && DumpItems(items)[0] in ",]"
    ensures ReadItems(DumpItems(items) + rest) == Some((items, rest))
    decreases items, 0
  {
    var t := DumpItems(items) + rest;
    if items == [] {
      assert t[1..] == rest;
    } else {
      var tail := DumpItems(items[1..]) + rest;
      assert t[1..] == Dump(items[0]) + tail;
      ReadsItems(items[1..], rest);
      ReadsDump(items[0], tail);
      assert [items[0]] + items[1..] == items;
    }
  }

  lemma ReadFieldSteps(t: string, key: string, rest: string, j: Json, after: string)
    requires t != "" && t[0] == '\"'
    requires ReadString(t[1..]) == Some((key, rest)) && rest != "" && rest[0] == ':'
    requires Read(rest[1..]) == Some((j, after))
    ensures ReadField(t) == Some(((key, j), after))
  {
  }

  lemma {:induction false} ReadsField(j: Json, key: string, rest: string)
    requires j.Obj? && key in j.fields
    requires rest == "" || !IsDigit(rest[0])
    ensures DumpField(j, key) != "" && DumpField(j, key)[0] == '\"'
    ensures ReadField(DumpField(j, key) + rest) == Some(((key, j.fields[key]), rest))
    decreases j, 0, 0
  {
    hide Dump, Escape, Read, ReadString, ReadField;
    var t := DumpField(j, key) + rest;
    var value := Dump(j.fields[key]) + rest;
    var tail := ":" + value;
    assert t[1..] == Escape(key) + "\"" + tail;
    ReadsEscaped(key, tail);
    assert tail[1..] == value;
    ReadsDump(j.fields[key], rest);
    ReadFieldSteps(t, key, tail, j.fields[key], rest);
  }

  lemma {:induction false} ReadsFields(j: Json, keys: seq<string>, rest: string)
    requires j.Obj? && forall k <- keys :: k in j.fields
    ensures DumpFields(j, keys) != "" && DumpFields(j, keys)[0] in ",}"
    ensures ReadFields(DumpFields(j, keys) + rest) == Some((map k | k in keys :: j.fields[k], rest))
    decreases j, 0, 1 + |keys|
  {
    hide DumpField, ReadField, Dump;
    var t := DumpFields(j, keys) + rest;
    if keys == [] {
      assert t[1..] == rest;
    } else {
      var tail := DumpFields(j, keys[1..]) + rest;
      assert t[1..] == DumpField(j, keys[0]) + tail;
      ReadsFields(j, keys[1..], rest);
      ReadsField(j, keys[0], tail);
      ReadFieldsSteps(t, (keys[0], j.fields[keys[0]]), tail, map k | k in keys[1..] :: j.fields[k], rest);
      FirstKeyAndOthers(j.fields, keys);
    }
  }

  lemma ReadFieldsSteps(t: string, first: (string, Json), rest: string, others: map<string, Json>, after: string)
    requires t != "" && t[0] == ','
    requires ReadField(t[1..]) == Some((first, rest)) && ReadFields(rest) == Some((others, after))
    ensures ReadFields(t) == Some((map[first.0 := first.1] + others, after))
  {
  }

  lemma FirstKeyAndOthers(fields: map<string, Json>, keys: seq<string>)
    requires keys != [] && forall k <- keys :: k in fields
    ensures forall k <- keys[1..] :: k in fields
    ensures map[keys[0] := fields[keys[0]]] + (map k | k in keys[1..] :: fields[k]) == (map k | k in keys :: fields[k])
  {
    assert forall k :: k in keys <==> k == keys[0] || k in keys[1..];
  }

  /** Parsing canonical text gives back the value it was written from. */
  lemma LoadsDump(j: Json)
    ensures Loads(Dump(j)) == Some(j)
  {
    ReadsDump(j, "");
    assert Dump(j) + "" == Dump(j);
  }

  /** Equal canonical texts come from equal values. */
  lemma DumpInjective(a: Json, b: Json)
    requires Dump(a) == Dump(b)
    ensures a == b
  {
    LoadsDump(a);
    LoadsDump(b);
  }

  /** Of all spellings that a reader takes for a character the canonical one is among the shortest: a
      character that needs no escape stands for itself, and a short escape is used where there is one. */
  lemma EscapeIsShortest(c: char, t: string, rest: string)
    requires t != "" && ReadChar(t) == Some((c, rest))
    ensures |EscapeChar(c)| <= |t| - |rest| || c == '\"' || c == '\\'
    ensures (c == '\"' || c == '\\') ==> |EscapeChar(c)| == 2
  {
    hide ReadHex4;
  }

  /** The longest escapes are spelled with lower-case digits. */
  lemma HexIsLowerCase(n: nat)
    requires n < 16
    ensures HexValue(HexDigit(n)) == Some(n) && !('A' <= HexDigit(n) <= 'F')
  {
  }

  // ------------------------------------------------------------------
  // Samples of the text, letter for letter

  /** Only negative numbers carry a sign, and no number a leading zero or a plus. */
  lemma IntTextIsPlain(n: int)
    ensures n >= 0 ==> AllDigits(IntText(n)) && Value(IntText(n)) == n
    ensures n < 0 ==> IntText(n)[..1] == "-" && AllDigits(IntText(n)[1..]) && Value(IntText(n)[1..]) == -n
    ensures n > 0 ==> |IntText(n)| >= 1 && IntText(n)[0] != '0'
    ensures n < 0 ==> |IntText(n)| >= 2 && IntText(n)[1] != '0'
  {
    PrintValue(if n < 0 then -n else n);
    PrintIsDecimal(0);
    assert Value("0") == 0;
    if n < 0 {
      assert IntText(n)[1..] == Print(-n);
    }
  }

  lemma DumpItemsStep(first: Json, rest: seq<Json>)
    ensures DumpItems([first] + rest) == "," + Dump(first) + DumpItems(rest)
  {
    assert ([first] + rest)[1..] == rest;
  }

  lemma SampleArray()
    ensures Dump(Arr([Null, Bool(true), Bool(false), Arr([])])) == "[null,true,false,[]]"
  {
    assert DumpItems([]) == "]" && Dump(Arr([])) == "[]" && Dump(Null) == "null" && Dump(Bool(true)) == "true" && Dump(Bool(false)) == "false";
    hide DumpItems;
    DumpItemsStep(Arr([]), []);
    DumpItemsStep(Bool(false), [Arr([])]);
    DumpItemsStep(Bool(true), [Bool(false), Arr([])]);
    assert [Arr([])] + [] == [Arr([])];
    var items := [Bool(true)] + ([Bool(false)] + [Arr([])]);
    assert items == [Bool(true), Bool(false), Arr([])] && [Null, Bool(true), Bool(false), Arr([])][1..] == items;
  }

  lemma SampleString()
    ensures Dump(Str("x\n\U{00E9}")) == "\"x\\n\U{00E9}\""
  {
    var s := "x\n\U{00E9}";
    assert s[1..] == "\n\U{00E9}" && s[1..][1..] == "\U{00E9}" && s[1..][1..][1..] == "";
    assert Escape(s[1..][1..]) == "\U{00E9}";
    assert Escape(s[1..]) == "\\n\U{00E9}";
  }

  lemma SampleObject(j: Json)
    requires j.Obj? && j.fields.Keys == {"a", "b"}
    ensures Dump(j) == "{\"a\":" + Dump(j.fields["a"]) + ",\"b\":" + Dump(j.fields["b"]) + "}"
  {
    hide DumpField, DumpFields, Quote;
    SampleKeys(j.fields.Keys);
    assert ["a", "b"][1..] == ["b"];
    SampleFields(j);
    assert ObjBody(j) == DumpField(j, "a") + DumpFields(j, ["b"]);
  }

  lemma SampleFields(j: Json)
    requires j.Obj? && "a" in j.fields && "b" in j.fields
    ensures DumpField(j, "a") == "\"a\":" + Dump(j.fields["a"])
    ensures DumpFields(j, ["b"]) == ",\"b\":" + Dump(j.fields["b"]) + "}"
  {
    hide Dump;
    assert Quote("a") == "\"a\"" && Quote("b") == "\"b\"";
    assert ["b"][1..] == [];
    assert DumpField(j, "b") == "\"b\":" + Dump(j.fields["b"]);
    assert DumpFields(j, []) == "}";
  }

  lemma SampleKeys(keys: set<string>)
    requires keys == {"a", "b"}
    ensures SortedTexts(keys) == ["a", "b"]
  {
    TextOrder();
    assert Lists(["a", "b"], keys);
    AscendingUnique(SortedTexts(keys), ["a", "b"], TextLe);
  }
}
