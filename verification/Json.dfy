/**
 The closed JSON profile of canonical evidence (RFC 8259, sections 2 to 7):
 a printer with sorted keys and no whitespace, and the two ways the program
 reads text back. `Plain` is json.loads without hooks; `Strict` adds the command
 codec's hooks, which refuse duplicate keys, non-integers, negative zero and
 integers outside 64 bits.
 */
module Json {
  import opened Outcomes
  import opened Text

  datatype Json =
    | Null
    | Bool(b: bool)
    | Int(i: int)
    | Float(token: string)
    | Str(s: string)
    | Arr(items: seq<Json>)
    | Obj(fields: seq<Member>)

  datatype Member = Member(key: string, value: Json)

  datatype Mode = Plain | Strict

  datatype JsonError = Syntax | LoneSurrogate | DuplicateKey | NotAnInteger | NotCanonicalInteger

  const MIN_64 := -0x8000_0000_0000_0000
  const MAX_64 := 0x7fff_ffff_ffff_ffff

  /** Keys strictly ascending by code point: the order json.dumps sorts into. */
  predicate Ascending(fields: seq<Member>) {
    forall i | 0 < i < |fields| :: Less(fields[i - 1].key, fields[i].key)
  }

  /** Values whose printed form is canonical: dictionaries sorted, no floats. */
  predicate Canonical(j: Json) {
    match j
    case Float(_) => false
    case Arr(items) => forall x | x in items :: Canonical(x)
    case Obj(fields) => Ascending(fields) && forall f: Member | f in fields :: Canonical(f.value)
    case _ => true
  }

  predicate Within64(j: Json) {
    match j
    case Int(i) => MIN_64 <= i <= MAX_64
    case Arr(items) => forall x | x in items :: Within64(x)
    case Obj(fields) => forall f: Member | f in fields :: Within64(f.value)
    case _ => true
  }

  /** What `mode` can read back. */
  predicate Readable(j: Json, mode: Mode) {
    Canonical(j) && (mode.Strict? ==> Within64(j))
  }

  // ---- Printer ----

  function HexChar(d: nat): char
    requires d < 16
  {
    "0123456789abcdef"[d]
  }

  function EscapeChar(c: char): (s: string)
    ensures s != ""
  {
    if c == '"' then "\\\""
    else if c == '\\' then "\\\\"
    else if c == '\n' then "\\n"
    else if c == '\r' then "\\r"
    else if c == '\t' then "\\t"
    else if c == '\U{c}' then "\\f"
    else if c == '\U{8}' then "\\b"
    else if c < ' ' then ['\\', 'u', '0', '0', HexChar(c as int / 16), HexChar(c as int % 16)]
    else [c]
  }

  function Escape(s: string): string {
    if s == "" then "" else EscapeChar(s[0]) + Escape(s[1..])
  }

  function PrintString(s: string): string {
    "\"" + Escape(s) + "\""
  }

  function Print(j: Json): string
    decreases j, 1
  {
    match j
    case Null => "null"
    case Bool(b) => if b then "true" else "false"
    case Int(i) => RenderInt(i)
    case Float(token) => token
    case Str(s) => PrintString(s)
    case Arr(items) => "[" + (if items == [] then "]" else PrintItems(items))
    case Obj(fields) => "{" + (if fields == [] then "}" else PrintMembers(fields))
  }

  function PrintItems(items: seq<Json>): string
    requires items != []
    decreases items, 0
  {
    Print(items[0]) + (if |items| == 1 then "]" else "," + PrintItems(items[1..]))
  }

  function PrintMembers(fields: seq<Member>): string
    requires fields != []
    decreases fields, 0
  {
    PrintString(fields[0].key) + ":" + Print(fields[0].value)
    + (if |fields| == 1 then "}" else "," + PrintMembers(fields[1..]))
  }

  // ---- Reader ----

  predicate IsJsonSpace(c: char) {
    c == ' ' || c == '\t' || c == '\n' || c == '\r'
  }

  function SkipSpace(s: string): (r: string)
    ensures |r| <= |s|
  {
    if s != "" && IsJsonSpace(s[0]) then SkipSpace(s[1..]) else s
  }

  function HexValue(c: char): Option<nat> {
    if '0' <= c <= '9' then Some(c as int - '0' as int)
    else if 'a' <= c <= 'f' then Some(c as int - 'a' as int + 10)
    else if 'A' <= c <= 'F' then Some(c as int - 'A' as int + 10)
    else None
  }

  function Hex4(s: string): (r: Option<nat>)
    ensures r.Some? ==> r.value < 0x1_0000 && |s| >= 4
  {
    if |s| < 4 then None
    else match (HexValue(s[0]), HexValue(s[1]), HexValue(s[2]), HexValue(s[3]))
      case (Some(a), Some(b), Some(c), Some(d)) => Some(((a * 16 + b) * 16 + c) * 16 + d)
      case _ => None
  }

  /** Reads the text after an opening quote, up to and over the closing one. */
  function ReadString(s: string): (r: Result<(string, string), JsonError>)
    ensures r.Ok? ==> |r.value.1| < |s|
  {
    if s == "" then Err(Syntax)
    else if s[0] == '"' then Ok(("", s[1..]))
    else if s[0] < ' ' then Err(Syntax)
    else if s[0] != '\\' then Prepend(s[0], ReadString(s[1..]))
    else if |s| == 1 then Err(Syntax)
    else
      match s[1]
      case '"' => Prepend('"', ReadString(s[2..]))
      case '\\' => Prepend('\\', ReadString(s[2..]))
      case '/' => Prepend('/', ReadString(s[2..]))
      case 'b' => Prepend('\U{8}', ReadString(s[2..]))
      case 'f' => Prepend('\U{c}', ReadString(s[2..]))
      case 'n' => Prepend('\n', ReadString(s[2..]))
      case 'r' => Prepend('\r', ReadString(s[2..]))
      case 't' => Prepend('\t', ReadString(s[2..]))
      case 'u' =>
        (match Hex4(s[2..])
         case None => Err(Syntax)
         case Some(u) =>
           if !(0xd800 <= u < 0xe000) then Prepend(u as char, ReadString(s[6..]))
           else if u < 0xdc00 && |s| >= 8 && s[6] == '\\' && s[7] == 'u' then
             match Hex4(s[8..])
             case Some(v) =>
               if 0xdc00 <= v < 0xe000
               then Prepend((0x1_0000 + (u - 0xd800) * 0x400 + (v - 0xdc00)) as char, ReadString(s[12..]))
               else Err(LoneSurrogate)
             case None => Err(Syntax)
           else Err(LoneSurrogate))
      case _ => Err(Syntax)
  }

  function Prepend(c: char, r: Result<(string, string), JsonError>): Result<(string, string), JsonError> {
    match r
    case Ok(p) => Ok(([c] + p.0, p.1))
    case Err(e) => Err(e)
  }

  /** The longest run of digits, and what follows it. */
  function DigitRun(s: string): (r: (string, string))
    ensures s == r.0 + r.1 && AllDigits(r.0)
  {
    if s != "" && IsDigit(s[0]) then
      var r := DigitRun(s[1..]);
      ([s[0]] + r.0, r.1)
    else ("", s)
  }

  /** The optional fraction or exponent after an integer part. */
  function Tail(s: string): (r: (string, string))
    ensures s == r.0 + r.1
  {
    var f := if |s| >= 2 && s[0] == '.' && IsDigit(s[1]) then 1 + |DigitRun(s[1..]).0| else 0;
    var t := s[f..];
    var sign := if |t| >= 2 && (t[1] == '+' || t[1] == '-') then 2 else 1;
    var e := if |t| > sign && (t[0] == 'e' || t[0] == 'E') && IsDigit(t[sign]) then sign + |DigitRun(t[sign..]).0| else 0;
    (s[..f + e], s[f + e..])
  }

  /** The digits of an integer part: a single zero, or a run. */
  function IntegerDigits(t: string): (r: (string, string))
    ensures t == r.0 + r.1 && AllDigits(r.0)
  {
    if t != "" && t[0] == '0' then ("0", t[1..]) else DigitRun(t)
  }

  /** The integer a token denotes, where `mode` accepts the token. */
  function IntegerOf(negative: bool, digits: string, mode: Mode): Result<int, JsonError>
    requires AllDigits(digits)
  {
    var i := if negative then -(NatValue(digits) as int) else NatValue(digits);
    if mode.Strict? && ((negative && i == 0) || |digits| > 19 || !(MIN_64 <= i <= MAX_64))
    then Err(NotCanonicalInteger)
    else Ok(i)
  }

  function ReadNumber(s: string, mode: Mode): (r: Result<(Json, string), JsonError>)
    ensures r.Ok? ==> |r.value.1| < |s|
  {
    if s != "" && s[0] == '-' then ReadMagnitude(s[1..], true, mode) else ReadMagnitude(s, false, mode)
  }

  function ReadMagnitude(t: string, negative: bool, mode: Mode): (r: Result<(Json, string), JsonError>)
    ensures r.Ok? ==> |r.value.1| < |t|
  {
    var digits := IntegerDigits(t);
    var tail := Tail(digits.1);
    if digits.0 == "" then Err(Syntax)
    else if tail.0 == "" then
      var i :- IntegerOf(negative, digits.0, mode);
      Ok((Int(i), tail.1))
    else if mode.Strict? then Err(NotAnInteger)
    else Ok((Float((if negative then "-" else "") + digits.0 + tail.0), tail.1))
  }

  predicate Starts(s: string, word: string)
    ensures Starts(s, word) && |word| >= 2 ==> |s| >= 2 && s[0] == word[0] && s[1] == word[1]
  {
    |s| >= |word| && s[..|word|] == word
  }

  function ReadValue(s: string, mode: Mode): (r: Result<(Json, string), JsonError>)
    ensures r.Ok? ==> |r.value.1| < |s|
    decreases |s|, 1
  {
    if s == "" then Err(Syntax)
    else if s[0] == '"' then
      var p :- ReadString(s[1..]);
      Ok((Str(p.0), p.1))
    else if s[0] == '[' then
      var t := SkipSpace(s[1..]);
      if t != "" && t[0] == ']' then Ok((Arr([]), t[1..]))
      else
        var p :- ReadItems(t, mode);
        Ok((Arr(p.0), p.1))
    else if s[0] == '{' then
      var t := SkipSpace(s[1..]);
      if t != "" && t[0] == '}' then Ok((Obj([]), t[1..]))
      else
        var p :- ReadMembers(t, mode);
        var fields :- Collect(p.0, mode);
        Ok((Obj(fields), p.1))
    else ReadAtom(s, mode)
  }

  /** Literals, the non-finite constants, and numbers. */
  function ReadAtom(s: string, mode: Mode): (r: Result<(Json, string), JsonError>)
    ensures r.Ok? ==> |r.value.1| < |s|
  {
    if Starts(s, "null") then Ok((Null, s[4..]))
    else if Starts(s, "true") then Ok((Bool(true), s[4..]))
    else if Starts(s, "false") then Ok((Bool(false), s[5..]))
    else if Starts(s, "NaN") then Constant("NaN", s[3..], mode)
    else if Starts(s, "Infinity") then Constant("Infinity", s[8..], mode)
    else if Starts(s, "-Infinity") then Constant("-Infinity", s[9..], mode)
    else ReadNumber(s, mode)
  }

  function Constant(token: string, rest: string, mode: Mode): Result<(Json, string), JsonError> {
    if mode.Strict? then Err(NotAnInteger) else Ok((Float(token), rest))
  }

  function ReadItems(s: string, mode: Mode): (r: Result<(seq<Json>, string), JsonError>)
    ensures r.Ok? ==> |r.value.1| < |s|
    decreases |s|, 2
  {
    var p :- ReadValue(s, mode);
    var t := SkipSpace(p.1);
    if t == "" then Err(Syntax)
    else if t[0] == ']' then Ok(([p.0], t[1..]))
    else if t[0] == ',' then
      var q :- ReadItems(SkipSpace(t[1..]), mode);
      Ok(([p.0] + q.0, q.1))
    else Err(Syntax)
  }

  function ReadMembers(s: string, mode: Mode): (r: Result<(seq<Member>, string), JsonError>)
    ensures r.Ok? ==> |r.value.1| < |s|
    decreases |s|, 2
  {
    if s == "" || s[0] != '"' then Err(Syntax)
    else
      var k :- ReadString(s[1..]);
      var c := SkipSpace(k.1);
      if c == "" || c[0] != ':' then Err(Syntax)
      else
        var p :- ReadValue(SkipSpace(c[1..]), mode);
        var t := SkipSpace(p.1);
        if t == "" then Err(Syntax)
        else if t[0] == '}' then Ok(([Member(k.0, p.0)], t[1..]))
        else if t[0] == ',' then
          var q :- ReadMembers(SkipSpace(t[1..]), mode);
          Ok(([Member(k.0, p.0)] + q.0, q.1))
        else Err(Syntax)
  }

  /** A dictionary entry set among sorted entries. */
  function Put(fields: seq<Member>, m: Member): seq<Member> {
    if fields == [] || Less(m.key, fields[0].key) then [m] + fields
    else if m.key == fields[0].key then [m] + fields[1..]
    else [fields[0]] + Put(fields[1..], m)
  }

  predicate HasKey(fields: seq<Member>, key: string) {
    exists i | 0 <= i < |fields| :: fields[i].key == key
  }

  /** Key-value pairs in text order as a dictionary; later pairs win. */
  function Collect(pairs: seq<Member>, mode: Mode): Result<seq<Member>, JsonError> {
    if pairs == [] then Ok([])
    else
      var init, last := pairs[..|pairs| - 1], pairs[|pairs| - 1];
      var fields :- Collect(init, mode);
      if mode.Strict? && HasKey(fields, last.key) then Err(DuplicateKey) else Ok(Put(fields, last))
  }

  /** json.loads: one value, surrounding whitespace, nothing else. */
  function Parse(s: string, mode: Mode): Result<Json, JsonError> {
    var p :- ReadValue(SkipSpace(s), mode);
    if SkipSpace(p.1) == "" then Ok(p.0) else Err(Syntax)
  }

  // ---- The reader undoes the printer ----

  /** What may follow a printed value inside a larger text. */
  predicate Stops(rest: string) {
    rest == "" || rest[0] == ',' || rest[0] == ']' || rest[0] == '}'
  }

  lemma HexPair(s: string, n: nat)
    requires n < 32 && |s| >= 4 && s[0] == '0' && s[1] == '0'
    requires s[2] == HexChar(n / 16) && s[3] == HexChar(n % 16)
    ensures Hex4(s) == Some(n)
  {
    assert HexValue(HexChar(n / 16)) == Some(n / 16);
    assert HexValue(HexChar(n % 16)) == Some(n % 16);
    assert n / 16 * 16 + n % 16 == n;
  }

  lemma ReadControl(c: char, t: string)
    requires |EscapeChar(c)| == 6
    ensures ReadString(EscapeChar(c) + t) == Prepend(c, ReadString(t))
  {
    hide Hex4, HexChar;
    var s := EscapeChar(c) + t;
    assert s[6..] == t;
    HexPair(s[2..], c as int);
  }

  lemma ReadEscapedChar(c: char, t: string)
    ensures ReadString(EscapeChar(c) + t) == Prepend(c, ReadString(t))
  {
    hide Hex4, HexChar, Prepend;
    var s := EscapeChar(c) + t;
    if |EscapeChar(c)| == 6 {
      ReadControl(c, t);
    } else if |EscapeChar(c)| == 2 {
      assert s[2..] == t;
    } else {
      assert s[1..] == t;
    }
  }

  lemma {:induction false} ReadPrintedString(s: string, rest: string)
    ensures ReadString(Escape(s) + "\"" + rest) == Ok((s, rest))
  {
    if s == "" {
      assert (Escape(s) + "\"" + rest)[1..] == rest;
    } else {
      var t := Escape(s[1..]) + "\"" + rest;
      assert Escape(s) + "\"" + rest == EscapeChar(s[0]) + t;
      ReadEscapedChar(s[0], t);
      ReadPrintedString(s[1..], rest);
      assert [s[0]] + s[1..] == s;
    }
  }

  lemma {:induction false} DigitRunAt(digits: string, rest: string)
    requires AllDigits(digits) && (rest == "" || !IsDigit(rest[0]))
    ensures DigitRun(digits + rest) == (digits, rest)
  {
    var s := digits + rest;
    if digits == "" {
      assert s == rest;
    } else {
      assert s[1..] == digits[1..] + rest;
      DigitRunAt(digits[1..], rest);
      assert [digits[0]] + digits[1..] == digits;
    }
  }

  lemma {:induction false} DigitRunStops(s: string)
    ensures DigitRun(s).1 == "" || !IsDigit(DigitRun(s).1[0])
  {
    if s != "" && IsDigit(s[0]) { DigitRunStops(s[1..]); }
  }

  lemma NineteenDigits(n: nat)
    requires n <= MAX_64 + 1
    ensures |RenderNat(n)| <= 19
  {
    assert Pow10(9) == 1_000_000_000;
    assert Pow10(14) == 100_000_000_000_000;
    assert Pow10(19) == 10_000_000_000_000_000_000;
    RenderNatWidth(n, 19);
  }

  lemma IntegerDigitsAt(n: nat, rest: string)
    requires Stops(rest)
    ensures IntegerDigits(RenderNat(n) + rest) == (RenderNat(n), rest)
  {
    DigitRunAt(RenderNat(n), rest);
    if n == 0 {
      assert (RenderNat(n) + rest)[1..] == rest;
    }
  }

  lemma IntegerOfRendered(i: int, mode: Mode)
    requires mode.Strict? ==> MIN_64 <= i <= MAX_64
    ensures IntegerOf(i < 0, RenderNat(Magnitude(i)), mode) == Ok(i)
  {
    RenderNatValue(Magnitude(i));
    if mode.Strict? { NineteenDigits(Magnitude(i)); }
  }

  function Magnitude(i: int): nat {
    if i < 0 then -i else i
  }

  lemma TailStops(rest: string)
    requires Stops(rest)
    ensures Tail(rest) == ("", rest)
  {}

  lemma MagnitudeUnfolds(t: string, negative: bool, mode: Mode, digits: string, after: string, i: int)
    requires IntegerDigits(t) == (digits, after) && digits != "" && Tail(after) == ("", after)
    requires AllDigits(digits) && IntegerOf(negative, digits, mode) == Ok(i)
    ensures ReadMagnitude(t, negative, mode) == Ok((Int(i), after))
  {}

  lemma ReadPrintedInt(i: int, rest: string, mode: Mode)
    requires Stops(rest) && (mode.Strict? ==> MIN_64 <= i <= MAX_64)
    ensures ReadNumber(RenderInt(i) + rest, mode) == Ok((Int(i), rest))
  {
    hide RenderNat, IntegerOf, IntegerDigits, Tail, ReadMagnitude;
    var t, s := RenderNat(Magnitude(i)) + rest, RenderInt(i) + rest;
    IntegerDigitsAt(Magnitude(i), rest);
    IntegerOfRendered(i, mode);
    TailStops(rest);
    MagnitudeUnfolds(t, i < 0, mode, RenderNat(Magnitude(i)), rest, i);
    if i < 0 {
      ConsDrop("-", RenderNat(-i), rest);
    } else {
      assert IsDigit(s[0]);
    }
  }

  lemma NumberDispatch(s: string, mode: Mode)
    requires s != "" && (IsDigit(s[0]) || (s[0] == '-' && |s| >= 2 && IsDigit(s[1])))
    ensures ReadValue(s, mode) == ReadNumber(s, mode)
  {
    hide ReadNumber, ReadString, ReadItems, ReadMembers, SkipSpace, Collect, Constant;
    assert ReadValue(s, mode) == ReadAtom(s, mode);
  }

  lemma ReadsLiteral(j: Json, rest: string, mode: Mode)
    requires j.Null? || j.Bool?
    ensures ReadValue(Print(j) + rest, mode) == Ok((j, rest))
  {
    var s, w := Print(j) + rest, Print(j);
    assert s[..|w|] == w && s[|w|..] == rest;
    assert s[0] == w[0];
  }

  lemma ReadsInt(i: int, rest: string, mode: Mode)
    requires Stops(rest) && (mode.Strict? ==> MIN_64 <= i <= MAX_64)
    ensures ReadValue(RenderInt(i) + rest, mode) == Ok((Int(i), rest))
  {
    hide ReadValue, ReadNumber, RenderNat;
    var s := RenderInt(i) + rest;
    ReadPrintedInt(i, rest, mode);
    assert i < 0 ==> s[0] == '-' && s[1] == RenderNat(-i)[0];
    assert i >= 0 ==> s[0] == RenderNat(i)[0];
    NumberDispatch(s, mode);
  }

  lemma ReadsString(t: string, rest: string, mode: Mode)
    ensures ReadValue(PrintString(t) + rest, mode) == Ok((Str(t), rest))
  {
    hide ReadString, Escape, ReadAtom, ReadItems, ReadMembers, Collect;
    var s := PrintString(t) + rest;
    ReadPrintedString(t, rest);
    assert s[0] == '"' && s[1..] == Escape(t) + "\"" + rest;
  }

  lemma ReadsArray(items: seq<Json>, rest: string, mode: Mode)
    requires items != [] ==> Canonical(items[0])
    requires items != [] ==> ReadItems(PrintItems(items) + rest, mode) == Ok((items, rest))
    ensures ReadValue(Print(Arr(items)) + rest, mode) == Ok((Arr(items), rest))
  {
    hide ReadItems, ReadString, ReadAtom, ReadMembers, Collect, Canonical;
    var s := Print(Arr(items)) + rest;
    assert s[0] == '[';
    if items == [] {
      assert s[1..] == "]" + rest && s[1..][1..] == rest;
    } else {
      assert s[1..] == PrintItems(items) + rest;
      PrintOpens(items[0]);
      assert s[1..][0] == Print(items[0])[0];
    }
  }

  lemma ObjectUnfolds(s: string, mode: Mode, fields: seq<Member>, rest: string)
    requires |s| >= 2 && s[0] == '{' && s[1] == '"'
    requires ReadMembers(s[1..], mode) == Ok((fields, rest)) && Collect(fields, mode) == Ok(fields)
    ensures ReadValue(s, mode) == Ok((Obj(fields), rest))
  {
    assert SkipSpace(s[1..]) == s[1..];
  }

  lemma ReadsEmptyObject(rest: string, mode: Mode)
    ensures ReadValue("{" + "}" + rest, mode) == Ok((Obj([]), rest))
  {
    ConsDrop("{", "}", rest);
    assert ("}" + rest)[1..] == rest;
  }

  lemma ReadsObject(fields: seq<Member>, rest: string, mode: Mode)
    requires Ascending(fields) && fields != []
    requires ReadMembers(PrintMembers(fields) + rest, mode) == Ok((fields, rest))
    ensures ReadValue(Print(Obj(fields)) + rest, mode) == Ok((Obj(fields), rest))
  {
    ConsDrop("{", PrintMembers(fields), rest);
    CollectAscending(fields, mode);
    ObjectUnfolds("{" + PrintMembers(fields) + rest, mode, fields, rest);
  }

  /** A printed value opens with a character no reader skips or mistakes. */
  lemma PrintOpens(j: Json)
    requires Canonical(j)
    ensures Print(j) != "" && !IsJsonSpace(Print(j)[0]) && Print(j)[0] != ']' && Print(j)[0] != '}'
  {}

  lemma {:induction false} ReadPrinted(j: Json, rest: string, mode: Mode)
    requires Readable(j, mode) && Stops(rest)
    ensures ReadValue(Print(j) + rest, mode) == Ok((j, rest))
    decreases j, 1
  {
    match j
    case Null => ReadsLiteral(j, rest, mode);
    case Bool(_) => ReadsLiteral(j, rest, mode);
    case Int(i) => ReadsInt(i, rest, mode);
    case Str(t) => ReadsString(t, rest, mode);
    case Arr(items) =>
      if items != [] { ReadPrintedItems(items, rest, mode); }
      ReadsArray(items, rest, mode);
    case Obj(fields) =>
      if fields == [] {
        ReadsEmptyObject(rest, mode);
      } else {
        ReadPrintedMembers(fields, rest, mode);
        ReadsObject(fields, rest, mode);
      }
  }

  lemma ItemsUnfold(s: string, mode: Mode, v: Json, after: string, vs: seq<Json>, rest: string)
    requires ReadValue(s, mode) == Ok((v, after)) && after != ""
    requires || (after[0] == ']' && vs == [] && after[1..] == rest)
             || (&& after[0] == ',' && |after| >= 2 && !IsJsonSpace(after[1])
                 && ReadItems(after[1..], mode) == Ok((vs, rest)))
    ensures ReadItems(s, mode) == Ok(([v] + vs, rest))
  {
    assert SkipSpace(after) == after;
    assert after[0] == ',' ==> SkipSpace(after[1..]) == after[1..];
    assert vs == [] ==> [v] + vs == [v];
  }

  lemma {:induction false} ReadPrintedItems(items: seq<Json>, rest: string, mode: Mode)
    requires items != [] && (forall x | x in items :: Readable(x, mode)) && Stops(rest)
    ensures ReadItems(PrintItems(items) + rest, mode) == Ok((items, rest))
    decreases items, 0
  {
    hide ReadItems, ReadValue, Canonical, Within64, SkipSpace;
    var more := if |items| == 1 then rest else PrintItems(items[1..]) + rest;
    var after := (if |items| == 1 then "]" else ",") + more;
    assert PrintItems(items) + rest == Print(items[0]) + after;
    ReadPrinted(items[0], after, mode);
    assert after[1..] == more;
    if |items| > 1 {
      assert items[1] in items;
      PrintOpens(items[1]);
      assert more[0] == Print(items[1])[0];
      ReadPrintedItems(items[1..], rest, mode);
    }
    ItemsUnfold(PrintItems(items) + rest, mode, items[0], after, items[1..], rest);
    assert [items[0]] + items[1..] == items;
  }

  lemma MembersUnfold(s: string, mode: Mode, key: string, body: string, v: Json, after: string,
                      ms: seq<Member>, rest: string)
    requires s != "" && s[0] == '"' && ReadString(s[1..]) == Ok((key, ":" + body))
    requires body != "" && !IsJsonSpace(body[0])
    requires ReadValue(body, mode) == Ok((v, after)) && after != ""
    requires || (after[0] == '}' && ms == [] && after[1..] == rest)
             || (&& after[0] == ',' && |after| >= 2 && !IsJsonSpace(after[1])
                 && ReadMembers(after[1..], mode) == Ok((ms, rest)))
    ensures ReadMembers(s, mode) == Ok(([Member(key, v)] + ms, rest))
  {
    assert (":" + body)[1..] == body && SkipSpace(":" + body) == ":" + body;
    assert SkipSpace(body) == body;
    assert SkipSpace(after) == after;
    assert after[0] == ',' ==> SkipSpace(after[1..]) == after[1..];
    assert ms == [] ==> [Member(key, v)] + ms == [Member(key, v)];
  }

  /** The text of an object from one key on. */
  function MembersText(key: string, body: string): string {
    "\"" + (Escape(key) + "\"" + (":" + body))
  }

  lemma MembersTextOf(fields: seq<Member>, rest: string)
    requires fields != []
    ensures PrintMembers(fields) + rest
         == MembersText(fields[0].key, Print(fields[0].value) + After(fields, rest))
  {
    var key, v := Escape(fields[0].key), Print(fields[0].value);
    var more := if |fields| == 1 then "}" else "," + PrintMembers(fields[1..]);
    Assemble(key, v, more, rest);
    if |fields| > 1 { Assoc(",", PrintMembers(fields[1..]), rest); }
  }

  function After(fields: seq<Member>, rest: string): string
    requires fields != []
  {
    if |fields| == 1 then "}" + rest else "," + (PrintMembers(fields[1..]) + rest)
  }

  lemma Assemble(key: string, v: string, more: string, rest: string)
    ensures ("\"" + key + "\"") + ":" + v + more + rest == "\"" + (key + "\"" + (":" + (v + (more + rest))))
  {}

  lemma ReadsKey(key: string, body: string)
    ensures var s := MembersText(key, body);
            s != "" && s[0] == '"' && ReadString(s[1..]) == Ok((key, ":" + body))
  {
    var t := Escape(key) + "\"" + (":" + body);
    assert ("\"" + t)[1..] == t;
    ReadPrintedString(key, ":" + body);
  }

  lemma {:induction false} ReadPrintedMembers(fields: seq<Member>, rest: string, mode: Mode)
    requires fields != [] && (forall f: Member | f in fields :: Readable(f.value, mode)) && Stops(rest)
    ensures ReadMembers(PrintMembers(fields) + rest, mode) == Ok((fields, rest))
    decreases fields, 0
  {
    hide ReadMembers, ReadString, ReadValue, Canonical, SkipSpace, Escape;
    var key, v, after := fields[0].key, fields[0].value, After(fields, rest);
    MembersTextOf(fields, rest);
    ReadsKey(key, Print(v) + after);
    PrintOpens(v);
    ReadPrinted(v, after, mode);
    if |fields| > 1 {
      ReadPrintedMembers(fields[1..], rest, mode);
      AfterOpens(fields, rest);
    } else {
      assert after[1..] == rest;
    }
    MembersUnfold(MembersText(key, Print(v) + after), mode, key, Print(v) + after, v, after, fields[1..], rest);
    assert [fields[0]] + fields[1..] == fields;
  }

  lemma AfterOpens(fields: seq<Member>, rest: string)
    requires |fields| > 1
    ensures var after := After(fields, rest);
            |after| >= 2 && after[0] == ',' && after[1] == '"' && after[1..] == PrintMembers(fields[1..]) + rest
  {}

  lemma {:induction false} PutAtEnd(fields: seq<Member>, m: Member)
    requires forall f: Member | f in fields :: Less(f.key, m.key)
    ensures Put(fields, m) == fields + [m]
  {
    if fields != [] {
      PutAtEnd(fields[1..], m);
      if Less(m.key, fields[0].key) { LessTransitive(m.key, fields[0].key, m.key); }
      LessIrreflexive(m.key);
    }
  }

  lemma {:induction false} AscendingFar(fields: seq<Member>, i: nat, j: nat)
    requires Ascending(fields) && i < j < |fields|
    ensures Less(fields[i].key, fields[j].key)
    decreases j - i
  {
    if i + 1 < j {
      AscendingFar(fields, i, j - 1);
      LessTransitive(fields[i].key, fields[j - 1].key, fields[j].key);
    }
  }

  lemma AscendingLast(fields: seq<Member>)
    requires Ascending(fields) && fields != []
    ensures var last := |fields| - 1;
            forall f: Member | f in fields[..last] :: Less(f.key, fields[last].key)
  {
    var last := |fields| - 1;
    forall f: Member | f in fields[..last] ensures Less(f.key, fields[last].key) {
      var i :| 0 <= i < last && fields[i] == f;
      AscendingFar(fields, i, last);
    }
  }

  lemma {:induction false} CollectAscending(fields: seq<Member>, mode: Mode)
    requires Ascending(fields)
    ensures Collect(fields, mode) == Ok(fields)
  {
    if fields != [] {
      var init, last := fields[..|fields| - 1], fields[|fields| - 1];
      CollectAscending(init, mode);
      AscendingLast(fields);
      PutAtEnd(init, last);
      LessIrreflexive(last.key);
      assert init + [last] == fields;
    }
  }

  /** The reader undoes the printer on every canonical value. */
  lemma ParsePrint(j: Json, mode: Mode)
    requires Readable(j, mode)
    ensures Parse(Print(j), mode) == Ok(j)
  {
    PrintOpens(j);
    ReadPrinted(j, "", mode);
    assert Print(j) + "" == Print(j);
  }

  /** Hence canonical text determines its value. */
  lemma PrintInjective(a: Json, b: Json)
    requires Canonical(a) && Canonical(b) && Print(a) == Print(b)
    ensures a == b
  {
    ParsePrint(a, Plain);
    ParsePrint(b, Plain);
  }

  // ---- What the reader builds ----

  lemma AscendingTail(fields: seq<Member>)
    requires Ascending(fields) && fields != []
    ensures Ascending(fields[1..])
  {
    hide Less;
    var rest := fields[1..];
    forall i | 0 < i < |rest| ensures Less(rest[i - 1].key, rest[i].key) {
      assert rest[i - 1] == fields[i] && rest[i] == fields[i + 1];
    }
  }

  lemma AscendingCons(m: Member, rest: seq<Member>)
    requires Ascending(rest) && (rest == [] || Less(m.key, rest[0].key))
    ensures Ascending([m] + rest)
  {
    hide Less;
  }

  lemma {:induction false} PutAscends(fields: seq<Member>, m: Member)
    requires Ascending(fields)
    ensures var out := Put(fields, m);
      Ascending(out) && out != [] && out[0].key in {m.key} + (if fields == [] then {} else {fields[0].key})
  {
    hide Less, Ascending;
    if fields == [] || Less(m.key, fields[0].key) {
      AscendingCons(m, fields);
    } else {
      AscendingTail(fields);
      FirstTwo(fields);
      if m.key == fields[0].key {
        AscendingCons(m, fields[1..]);
      } else {
        LessTotal(fields[0].key, m.key);
        PutAscends(fields[1..], m);
        AscendingCons(fields[0], Put(fields[1..], m));
      }
    }
  }

  lemma FirstTwo(fields: seq<Member>)
    requires Ascending(fields)
    ensures |fields| >= 2 ==> Less(fields[0].key, fields[1..][0].key)
  {}

  lemma {:induction false} PutMembers(fields: seq<Member>, m: Member, x: Member)
    requires Ascending(fields)
    ensures x in Put(fields, m) <==> x == m || (x in fields && x.key != m.key)
  {
    hide Ascending, Less;
    if fields == [] {
    } else if Less(m.key, fields[0].key) {
      AllAbove(fields, m.key, x);
      LessIrreflexive(m.key);
    } else {
      AscendingTail(fields);
      assert fields == [fields[0]] + fields[1..];
      if m.key == fields[0].key {
        TailAbove(fields, x);
        LessIrreflexive(m.key);
      } else {
        PutMembers(fields[1..], m, x);
      }
    }
  }

  lemma {:induction false} AllAbove(fields: seq<Member>, key: string, x: Member)
    requires Ascending(fields) && fields != [] && Less(key, fields[0].key)
    ensures x in fields ==> Less(key, x.key)
  {
    hide Less;
    if x in fields {
      var i :| 0 <= i < |fields| && fields[i] == x;
      if i > 0 {
        AscendingFar(fields, 0, i);
        LessTransitive(key, fields[0].key, x.key);
      }
    }
  }

  lemma TailAbove(fields: seq<Member>, x: Member)
    requires Ascending(fields) && fields != []
    ensures x in fields[1..] ==> Less(fields[0].key, x.key)
  {
    hide Less;
    if x in fields[1..] {
      var i :| 0 <= i < |fields| - 1 && fields[1..][i] == x;
      AscendingFar(fields, 0, i + 1);
    }
  }

  /** Dictionaries sorted at every depth: canonical but for floats. */
  predicate Sorted(j: Json) {
    match j
    case Arr(items) => forall x | x in items :: Sorted(x)
    case Obj(fields) => Ascending(fields) && forall f: Member | f in fields :: Sorted(f.value)
    case _ => true
  }

  predicate NoFloats(j: Json) {
    match j
    case Float(_) => false
    case Arr(items) => forall x | x in items :: NoFloats(x)
    case Obj(fields) => forall f: Member | f in fields :: NoFloats(f.value)
    case _ => true
  }

  lemma {:induction false} CanonicalIsSortedNoFloats(j: Json)
    ensures Canonical(j) <==> Sorted(j) && NoFloats(j)
  {
    match j
    case Arr(items) => forall x | x in items { CanonicalIsSortedNoFloats(x); }
    case Obj(fields) => forall f: Member | f in fields { CanonicalIsSortedNoFloats(f.value); }
    case _ =>
  }

  lemma {:induction false} CollectSorts(pairs: seq<Member>, mode: Mode)
    requires Collect(pairs, mode).Ok? && forall f: Member | f in pairs :: Sorted(f.value)
    ensures Sorted(Obj(Collect(pairs, mode).value))
  {
    if pairs != [] {
      var init, last := pairs[..|pairs| - 1], pairs[|pairs| - 1];
      forall f: Member | f in init ensures Sorted(f.value) { assert f in pairs; }
      CollectSorts(init, mode);
      PutSorts(Collect(init, mode).value, last);
    }
  }

  lemma PutSorts(fields: seq<Member>, m: Member)
    requires Sorted(Obj(fields)) && Sorted(m.value)
    ensures Sorted(Obj(Put(fields, m)))
  {
    hide Less, Ascending, Put;
    PutAscends(fields, m);
    forall f: Member | f in Put(fields, m) ensures Sorted(f.value) { PutMembers(fields, m, f); }
  }

  lemma {:induction false} ReadIsSorted(s: string, mode: Mode)
    requires ReadValue(s, mode).Ok?
    ensures Sorted(ReadValue(s, mode).value.0)
    decreases |s|, 1
  {
    hide ReadString, ReadAtom, Collect, ReadItems, ReadMembers, SkipSpace, Sorted;
    AtomIsSorted(s, mode);
    NoItemsSorted();
    if s[0] == '[' {
      var t := SkipSpace(s[1..]);
      if !(t != "" && t[0] == ']') {
        ItemsAreSorted(t, mode);
        SortedItems(ReadItems(t, mode).value.0);
      }
    } else if s[0] == '{' {
      var t := SkipSpace(s[1..]);
      if !(t != "" && t[0] == '}') {
        MembersAreSorted(t, mode);
        CollectSorts(ReadMembers(t, mode).value.0, mode);
      }
    }
  }

  lemma NoItemsSorted()
    ensures Sorted(Arr([])) && Sorted(Obj([])) && forall t :: Sorted(Str(t))
  {}

  lemma SortedItems(items: seq<Json>)
    requires forall x | x in items :: Sorted(x)
    ensures Sorted(Arr(items))
  {}

  lemma AtomIsSorted(s: string, mode: Mode)
    ensures ReadAtom(s, mode).Ok? ==> Sorted(ReadAtom(s, mode).value.0)
  {
    hide IntegerOf, IntegerDigits, Tail, Starts;
  }

  lemma {:induction false} ItemsAreSorted(s: string, mode: Mode)
    requires ReadItems(s, mode).Ok?
    ensures forall x | x in ReadItems(s, mode).value.0 :: Sorted(x)
    decreases |s|, 2
  {
    hide ReadValue, SkipSpace, Sorted;
    ReadIsSorted(s, mode);
    var t := SkipSpace(ReadValue(s, mode).value.1);
    if t[0] == ',' { ItemsAreSorted(SkipSpace(t[1..]), mode); }
  }

  lemma {:induction false} MembersAreSorted(s: string, mode: Mode)
    requires ReadMembers(s, mode).Ok?
    ensures forall f: Member | f in ReadMembers(s, mode).value.0 :: Sorted(f.value)
    decreases |s|, 2
  {
    hide ReadValue, SkipSpace, Sorted, ReadString;
    var c := SkipSpace(ReadString(s[1..]).value.1);
    var body := SkipSpace(c[1..]);
    ReadIsSorted(body, mode);
    var t := SkipSpace(ReadValue(body, mode).value.1);
    if t[0] == ',' { MembersAreSorted(SkipSpace(t[1..]), mode); }
  }

  /** Whatever the reader accepts is canonical as soon as it holds no float. */
  lemma ParsedIsCanonical(s: string, mode: Mode)
    requires Parse(s, mode).Ok? && NoFloats(Parse(s, mode).value)
    ensures Canonical(Parse(s, mode).value)
  {
    hide ReadValue, SkipSpace, Sorted, NoFloats, Canonical;
    ReadIsSorted(SkipSpace(s), mode);
    CanonicalIsSortedNoFloats(Parse(s, mode).value);
  }

  // ---- Objects of a closed schema ----

  /** An object with the given keys, in sorted order, and their values. */
  function Record(keys: seq<string>, values: seq<Json>): (j: Json)
    requires |keys| == |values|
    ensures j.Obj?
  {
    Obj(seq(|keys|, i requires 0 <= i < |keys| => Member(keys[i], values[i])))
  }

  /** The values of an object whose keys are exactly `keys`. */
  function ExactObject(j: Json, keys: seq<string>): (r: Option<seq<Json>>)
    ensures r.Some? ==> |r.value| == |keys| && j == Record(keys, r.value)
  {
    if j.Obj? && |j.fields| == |keys| && forall i | 0 <= i < |keys| :: j.fields[i].key == keys[i] then
      var values := seq(|keys|, i requires 0 <= i < |keys| => j.fields[i].value);
      assert j.fields == Record(keys, values).fields;
      Some(values)
    else None
  }

  lemma ExactRecord(keys: seq<string>, values: seq<Json>)
    requires |keys| == |values|
    ensures ExactObject(Record(keys, values), keys) == Some(values)
  {
    var r := ExactObject(Record(keys, values), keys);
    assert r.value == values;
  }

  predicate AscendingKeys(keys: seq<string>) {
    forall i | 0 < i < |keys| :: Less(keys[i - 1], keys[i])
  }

  lemma AscendingJoin(a: seq<string>, b: seq<string>)
    requires AscendingKeys(a) && AscendingKeys(b) && a != [] && b != [] && Less(a[|a| - 1], b[0])
    ensures AscendingKeys(a + b)
  {}

  lemma RecordCanonical(keys: seq<string>, values: seq<Json>)
    requires |keys| == |values| && AscendingKeys(keys) && forall v | v in values :: Canonical(v)
    ensures Canonical(Record(keys, values))
  {
    var fields := Record(keys, values).fields;
    forall f: Member | f in fields ensures Canonical(f.value) {
      var i :| 0 <= i < |fields| && fields[i] == f;
      assert f.value == values[i];
    }
  }
}
