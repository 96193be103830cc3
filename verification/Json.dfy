/** The C++ client's JSON: values, their printed form, and the grammar its parser follows, as
    functions on byte texts. */
module Json {
  import opened BrokerTypes
  import opened WatermarkText
  import opened Orders

  datatype Value =
    | Null
    | Bool(b: bool)
    | Number(text: Bytes)
    | String(bytes: Bytes)
    | Array(items: seq<Value>)
    | Object(members: seq<Member>)

  /** An entry of a std::map, which keeps its entries in the order of their names. */
  datatype Member = Member(name: Bytes, value: Value)

  // ----- Printing -----

  function HexDigit(d: nat): Byte
    requires d < 16
  { if d < 10 then '0' + d as char else 'a' + (d - 10) as char }

  function EscapeByte(c: Byte): Bytes {
    if c == '"' then "\\\""
    else if c == '\\' then "\\\\"
    else if c == '\n' then "\\n"
    else if c == '\r' then "\\r"
    else if c == '\t' then "\\t"
    else if c as int < 0x20 then "\\u00" + [HexDigit(c as int / 16), HexDigit(c as int % 16)]
    else [c]
  }

  function Escape(s: Bytes): Bytes {
    if s == [] then [] else EscapeByte(s[0]) + Escape(s[1..])
  }

  function PrintString(s: Bytes): Bytes {
    "\"" + Escape(s) + "\""
  }

  function Print(v: Value): Bytes
    decreases v
  {
    match v
    case Null => "null"
    case Bool(b) => if b then "true" else "false"
    case Number(text) => text
    case String(bytes) => PrintString(bytes)
    case Array(items) => "[" + PrintItems(items) + "]"
    case Object(members) => "{" + PrintMembers(members) + "}"
  }

  function PrintItems(vs: seq<Value>): Bytes
    decreases vs
  {
    if vs == [] then [] else if |vs| == 1 then Print(vs[0]) else Print(vs[0]) + "," + PrintItems(vs[1..])
  }

  function PrintMember(m: Member): Bytes
    decreases m
  {
    PrintString(m.name) + ":" + Print(m.value)
  }

  function PrintMembers(ms: seq<Member>): Bytes
    decreases ms
  {
    if ms == [] then [] else if |ms| == 1 then PrintMember(ms[0]) else PrintMember(ms[0]) + "," + PrintMembers(ms[1..])
  }

  // ----- Parsing: what the text that remains comes to -----

  /** A ParseError, or the std::invalid_argument of std::stoul. */
  datatype Error = Malformed | NoConversion

  datatype Parsed<+T> = Ok(value: T, rest: Bytes) | Fail(error: Error)

  predicate IsSpace(c: Byte) { c == ' ' || c == '\t' || c == '\n' || c == '\r' }

  function SkipSpace(s: Bytes): (r: Bytes)
    ensures |r| <= |s|
    ensures r == [] || !IsSpace(r[0])
  {
    if s == [] || !IsSpace(s[0]) then s else SkipSpace(s[1..])
  }

  predicate NumberByte(c: Byte) {
    Digit(c) || c == '-' || c == '+' || c == '.' || c == 'e' || c == 'E'
  }

  function NumberLength(s: Bytes): (n: nat)
    ensures n <= |s| && forall i :: 0 <= i < n ==> NumberByte(s[i])
    ensures n < |s| ==> !NumberByte(s[n])
  {
    if s == [] || !NumberByte(s[0]) then 0 else 1 + NumberLength(s[1..])
  }

  function ParseNumber(s: Bytes): Parsed<Value> {
    var n := NumberLength(s);
    if n == 0 then Fail(Malformed) else Ok(Number(s[..n]), s[n..])
  }

  // std::stoul with base 16, on the four bytes after "\u".

  predicate IsCSpace(c: Byte) { IsSpace(c) || c as int == 11 || c as int == 12 }

  function HexValue(c: Byte): Option<nat> {
    if '0' <= c <= '9' then Some(c as int - '0' as int)
    else if 'a' <= c <= 'f' then Some(c as int - 'a' as int + 10)
    else if 'A' <= c <= 'F' then Some(c as int - 'A' as int + 10)
    else None
  }

  /** The value of the longest run of hex digits, with `acc` before it. */
  function HexRun(s: Bytes, acc: nat): nat {
    if s == [] || HexValue(s[0]).None? then acc else HexRun(s[1..], 16 * acc + HexValue(s[0]).value)
  }

  /** An optional "0x" counts only when a hex digit follows. */
  function Unsigned(s: Bytes): Option<nat> {
    if |s| >= 3 && s[0] == '0' && (s[1] == 'x' || s[1] == 'X') && HexValue(s[2]).Some? then Some(HexRun(s[2..], 0))
    else if s != [] && HexValue(s[0]).Some? then Some(HexRun(s, 0))
    else None
  }

  function SkipCSpace(s: Bytes): Bytes {
    if s == [] || !IsCSpace(s[0]) then s else SkipCSpace(s[1..])
  }

  /** The unsigned code: a minus sign wraps around. */
  function Stoul(s: Bytes): Option<nat> {
    var t := SkipCSpace(s);
    if t != [] && t[0] == '-' then
      match Unsigned(t[1..])
      case Some(n) => Some((0x1_0000_0000 - n % 0x1_0000_0000) % 0x1_0000_0000)
      case None => None
    else
      match Unsigned(if t != [] && t[0] == '+' then t[1..] else t)
      case Some(n) => Some(n % 0x1_0000_0000)
      case None => None
  }

  function ByteOf(n: nat): Byte { (n % 256) as char }

  /** One, two or three bytes; `0xE0 |` keeps the low five bits of what it is given. */
  function CodeBytes(code: nat): Bytes {
    if code < 0x80 then [ByteOf(code)]
    else if code < 0x800 then [ByteOf(0xC0 + code / 64), ByteOf(0x80 + code % 64)]
    else [ByteOf(0xE0 + code / 4096 % 32), ByteOf(0x80 + code / 64 % 64), ByteOf(0x80 + code % 64)]
  }

  function SimpleEscape(e: Byte): Option<Byte> {
    match e
    case '"' => Some('"')
    case '\\' => Some('\\')
    case '/' => Some('/')
    case 'n' => Some('\n')
    case 'r' => Some('\r')
    case 't' => Some('\t')
    case 'b' => Some(8 as char)
    case 'f' => Some(12 as char)
    case _ => None
  }

  /** The rest of a string, `out` being what was read of it. */
  function ParseStringFrom(s: Bytes, out: Bytes): (r: Parsed<Bytes>)
    ensures r.Ok? ==> |r.rest| < |s|
    decreases |s|
  {
    if s == [] then Fail(Malformed)
    else if s[0] == '"' then Ok(out, s[1..])
    else if s[0] != '\\' then ParseStringFrom(s[1..], out + [s[0]])
    else if |s| == 1 then Fail(Malformed)
    else if SimpleEscape(s[1]).Some? then ParseStringFrom(s[2..], out + [SimpleEscape(s[1]).value])
    else if s[1] != 'u' || |s| < 6 then Fail(Malformed)
    else
      match Stoul(s[2..6])
      case None => Fail(NoConversion)
      case Some(code) => ParseStringFrom(s[6..], out + CodeBytes(code))
  }

  function ParseString(s: Bytes): (r: Parsed<Bytes>)
    ensures r.Ok? ==> |r.rest| < |s|
  {
    if s == [] || s[0] != '"' then Fail(Malformed) else ParseStringFrom(s[1..], [])
  }

  predicate StartsWith(s: Bytes, word: Bytes) { word <= s }

  function ParseBool(s: Bytes): Parsed<Value> {
    if StartsWith(s, "true") then Ok(Bool(true), s[4..])
    else if StartsWith(s, "false") then Ok(Bool(false), s[5..])
    else Fail(Malformed)
  }

  function ParseNull(s: Bytes): Parsed<Value> {
    if StartsWith(s, "null") then Ok(Null, s[4..]) else Fail(Malformed)
  }

  function ParseValue(s: Bytes): (r: Parsed<Value>)
    ensures r.Ok? ==> |r.rest| < |s|
    decreases |s|, 0
  {
    if s == [] then Fail(Malformed)
    else if s[0] == '{' then ParseObject(SkipSpace(s[1..]))
    else if s[0] == '[' then ParseArray(SkipSpace(s[1..]))
    else if s[0] == '"' then
      match ParseString(s) case Ok(bytes, rest) => Ok(String(bytes), rest) case Fail(e) => Fail(e)
    else if s[0] == 't' || s[0] == 'f' then ParseBool(s)
    else if s[0] == 'n' then ParseNull(s)
    else ParseNumber(s)
  }

  /** After an opening bracket. */
  function ParseArray(s: Bytes): (r: Parsed<Value>)
    ensures r.Ok? ==> |r.rest| < |s|
    decreases |s|, 2
  {
    if s == [] then Fail(Malformed) else if s[0] == ']' then Ok(Array([]), s[1..]) else ParseItems(s, [])
  }

  /** After an opening brace. */
  function ParseObject(s: Bytes): (r: Parsed<Value>)
    ensures r.Ok? ==> |r.rest| < |s|
    decreases |s|, 2
  {
    if s == [] then Fail(Malformed) else if s[0] == '}' then Ok(Object([]), s[1..]) else ParseMembers(s, [])
  }

  function ParseItems(s: Bytes, items: seq<Value>): (r: Parsed<Value>)
    ensures r.Ok? ==> |r.rest| < |s|
    decreases |s|, 1
  {
    match ParseValue(SkipSpace(s))
    case Fail(e) => Fail(e)
    case Ok(v, rest) =>
      var t := SkipSpace(rest);
      if t == [] then Fail(Malformed)
      else if t[0] == ',' then ParseItems(t[1..], items + [v])
      else if t[0] == ']' then Ok(Array(items + [v]), t[1..])
      else Fail(Malformed)
  }

  function ParseMembers(s: Bytes, members: seq<Member>): (r: Parsed<Value>)
    ensures r.Ok? ==> |r.rest| < |s|
    decreases |s|, 1
  {
    match ParseMember(s)
    case Fail(e) => Fail(e)
    case Ok(m, rest) =>
      var t := SkipSpace(rest);
      var all := Assign(members, m.name, m.value);
      if t == [] then Fail(Malformed)
      else if t[0] == ',' then ParseMembers(t[1..], all)
      else if t[0] == '}' then Ok(Object(all), t[1..])
      else Fail(Malformed)
  }

  function ParseMember(s: Bytes): (r: Parsed<Member>)
    ensures r.Ok? ==> |r.rest| < |s|
    decreases |s|, 0
  {
    match ParseString(SkipSpace(s))
    case Fail(e) => Fail(e)
    case Ok(name, rest) =>
      var t := SkipSpace(rest);
      if t == [] || t[0] != ':' then Fail(Malformed)
      else
        match ParseValue(SkipSpace(t[1..]))
        case Fail(e) => Fail(e)
        case Ok(v, rest2) => Ok(Member(name, v), rest2)
  }

  /** What follows the value is not looked at. */
  function ParseDocument(s: Bytes): Parsed<Value> {
    match ParseValue(SkipSpace(s))
    case Fail(e) => Fail(e)
    case Ok(v, rest) => Ok(v, SkipSpace(rest))
  }

  // ----- std::map -----

  /** The order of std::string: by bytes. */
  predicate Less(a: Bytes, b: Bytes) {
    Before(Codes(a), Codes(b))
  }

  function Codes(s: Bytes): seq<int> {
    seq(|s|, i requires 0 <= i < |s| => s[i] as int)
  }

  /** `members[name] = value`. */
  function Assign(members: seq<Member>, name: Bytes, value: Value): seq<Member> {
    if members == [] then [Member(name, value)]
    else if members[0].name == name then [Member(name, value)] + members[1..]
    else if Less(name, members[0].name) then [Member(name, value)] + members
    else [members[0]] + Assign(members[1..], name, value)
  }

  function AssignAll(members: seq<Member>, more: seq<Member>): seq<Member>
    decreases |more|
  {
    if more == [] then members else AssignAll(Assign(members, more[0].name, more[0].value), more[1..])
  }

  ghost predicate Ordered(members: seq<Member>) {
    forall i, j :: 0 <= i < j < |members| ==> Less(members[i].name, members[j].name)
  }
}
