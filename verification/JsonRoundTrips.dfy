/** Whatever is printed is read back as it was: every value, every nesting, every byte. */
module JsonRoundTrips {
  import opened BrokerTypes
  import opened WatermarkText
  import opened Json
  import opened Orders

  /** Numbers are made of number bytes, and the entries of a map are in order. */
  ghost predicate WellFormed(v: Value)
    decreases v
  {
    match v
    case Number(text) => text != [] && forall c :: c in text ==> NumberByte(c)
    case Array(items) => forall i :: 0 <= i < |items| ==> WellFormed(items[i])
    case Object(members) => Ordered(members) && forall i :: 0 <= i < |members| ==> WellFormed(members[i].value)
    case _ => true
  }

  /** What follows a value does not run on into a number. */
  predicate Ends(post: Bytes) {
    post == [] || !NumberByte(post[0])
  }

  // ----- Strings -----

  lemma TwoHexDigits(x: Byte, y: Byte)
    requires HexValue(x).Some? && HexValue(y).Some?
    ensures HexRun([x, y], 0) == 16 * HexValue(x).value + HexValue(y).value
  {
    assert [x, y][1..] == [y] && [y][1..] == [];
    assert HexRun([y], HexValue(x).value) == HexRun([], 16 * HexValue(x).value + HexValue(y).value);
  }

  lemma LeadingZeros(s: Bytes)
    ensures HexRun("00" + s, 0) == HexRun(s, 0)
  {
    assert ("00" + s)[1..] == "0" + s && ("0" + s)[1..] == s;
    assert HexRun("0" + s, 0) == HexRun(s, 0);
  }

  /** A control byte survives its "\u00.." escape. */
  lemma ControlEscape(c: Byte)
    requires c as int < 0x20
    ensures Stoul("00" + [HexDigit(c as int / 16), HexDigit(c as int % 16)]) == Some(c as int)
    ensures CodeBytes(c as int) == [c]
  {
    var x, y := HexDigit(c as int / 16), HexDigit(c as int % 16);
    assert HexValue(x) == Some(c as int / 16) && HexValue(y) == Some(c as int % 16);
    TwoHexDigits(x, y);
    LeadingZeros([x, y]);
  }

  lemma OneByte(c: Byte, rest: Bytes, out: Bytes)
    ensures ParseStringFrom(EscapeByte(c) + rest, out) == ParseStringFrom(rest, out + [c])
  {
    var t := EscapeByte(c) + rest;
    if c == '"' || c == '\\' || c == '\n' || c == '\r' || c == '\t' {
      assert t[2..] == rest;
    } else if c as int < 0x20 {
      ControlEscape(c);
      assert t[2..6] == "00" + [HexDigit(c as int / 16), HexDigit(c as int % 16)];
      assert t[6..] == rest;
    } else {
      assert t[1..] == rest;
    }
  }

  lemma {:induction false} EscapedBytes(s: Bytes, post: Bytes, out: Bytes)
    ensures ParseStringFrom(Escape(s) + "\"" + post, out) == Ok(out + s, post)
  {
    if s == [] {
      ClosingQuote(Escape(s) + "\"" + post, post, out);
      assert out + s == out;
    } else {
      EscapedBytes(s[1..], post, out + [s[0]]);
      ByteThenRest(s[0], Escape(s[1..]), s[1..], post, out);
      assert [s[0]] + s[1..] == s;
    }
  }

  /** A byte, and then the others. */
  lemma ByteThenRest(c: Byte, others: Bytes, rest: Bytes, post: Bytes, out: Bytes)
    requires ParseStringFrom(others + "\"" + post, out + [c]) == Ok(out + [c] + rest, post)
    ensures ParseStringFrom(EscapeByte(c) + others + "\"" + post, out) == Ok(out + ([c] + rest), post)
  {
    EscapeGroups(EscapeByte(c) + others, EscapeByte(c), others, post);
    OneByte(c, others + "\"" + post, out);
    assert out + [c] + rest == out + ([c] + rest);
  }

  lemma ClosingQuote(text: Bytes, post: Bytes, out: Bytes)
    requires text == "\"" + post
    ensures ParseStringFrom(text, out) == Ok(out, post)
  {
    assert text[1..] == post;
  }

  lemma EscapeGroups(all: Bytes, first: Bytes, others: Bytes, post: Bytes)
    requires all == first + others
    ensures all + "\"" + post == first + (others + "\"" + post)
  {}

  lemma PrintedString(s: Bytes, post: Bytes)
    ensures ParseString(PrintString(s) + post) == Ok(s, post)
  {
    var t := PrintString(s) + post;
    assert t[1..] == Escape(s) + "\"" + post;
    EscapedBytes(s, post, []);
    assert [] + s == s;
  }

  // ----- Numbers and words -----

  lemma {:induction false} NumberStops(text: Bytes, post: Bytes)
    requires (forall c :: c in text ==> NumberByte(c)) && Ends(post)
    ensures NumberLength(text + post) == |text|
  {
    if text == [] {
      assert text + post == post;
    } else {
      assert (text + post)[1..] == text[1..] + post;
      NumberStops(text[1..], post);
    }
  }

  lemma PrintedNumber(text: Bytes, post: Bytes)
    requires text != [] && (forall c :: c in text ==> NumberByte(c)) && Ends(post)
    ensures ParseValue(text + post) == Ok(Number(text), post)
  {
    NumberStops(text, post);
    assert NumberByte(text[0]) by { assert text[0] in text; }
    assert (text + post)[..|text|] == text && (text + post)[|text|..] == post;
  }

  lemma PrintedWord(v: Value, post: Bytes)
    requires v.Null? || v.Bool?
    ensures ParseValue(Print(v) + post) == Ok(v, post)
  {
    var s := Print(v) + post;
    assert s[|Print(v)|..] == post;
    assert v.Bool? && !v.b ==> s[0] == 'f';
  }

  /** A printed value starts with no space and no closing bracket. */
  lemma PrintStart(v: Value)
    requires WellFormed(v)
    ensures Print(v) != [] && !IsSpace(Print(v)[0]) && Print(v)[0] != ']' && Print(v)[0] != '}'
  {
    if v.Number? { assert v.text[0] in v.text; }
  }

  // ----- Nesting -----

  lemma {:induction false} PrintedItems(vs: seq<Value>, post: Bytes, read: seq<Value>)
    requires vs != [] && forall i :: 0 <= i < |vs| ==> WellFormed(vs[i])
    ensures ParseItems(PrintItems(vs) + "]" + post, read) == Ok(Array(read + vs), post)
    decreases vs, 0
  {
    var v := vs[0];
    ItemsText(vs, post);
    PrintStart(v);
    if |vs| == 1 {
      PrintedValue(v, "]" + post);
      assert ("]" + post)[1..] == post && vs == [v];
      OneItem(PrintItems(vs) + "]" + post, read, v, "]" + post);
    } else {
      var tail := PrintItems(vs[1..]) + "]" + post;
      PrintedValue(v, "," + tail);
      OneItem(PrintItems(vs) + "]" + post, read, v, "," + tail);
      PrintedItems(vs[1..], post, read + [v]);
      assert read + [v] + vs[1..] == read + vs;
    }
  }

  lemma ItemsText(vs: seq<Value>, post: Bytes)
    requires vs != []
    ensures |vs| == 1 ==> PrintItems(vs) + "]" + post == Print(vs[0]) + ("]" + post)
    ensures |vs| > 1 ==> PrintItems(vs) + "]" + post == Print(vs[0]) + ("," + (PrintItems(vs[1..]) + "]" + post))
  {
    if |vs| == 1 {
      RegroupLast(PrintItems(vs), Print(vs[0]), ']', post);
    } else {
      RegroupMore(PrintItems(vs), Print(vs[0]), PrintItems(vs[1..]), ']', post);
    }
  }

  /** One item read. */
  lemma OneItem(s: Bytes, read: seq<Value>, v: Value, rest: Bytes)
    requires s != [] && !IsSpace(s[0]) && ParseValue(s) == Ok(v, rest) && rest != []
    ensures rest[0] == ',' ==> ParseItems(s, read) == ParseItems(rest[1..], read + [v])
    ensures rest[0] == ']' ==> ParseItems(s, read) == Ok(Array(read + [v]), rest[1..])
  {}

  // ----- Entries of a map -----

  /** What the map has under `name`. */
  function Get(ms: seq<Member>, name: Bytes): Option<Value> {
    if ms == [] then None else if ms[0].name == name then Some(ms[0].value) else Get(ms[1..], name)
  }

  /** What a list of entries gives `name` last. */
  function LastOf(ms: seq<Member>, name: Bytes): Option<Value> {
    if ms == [] then None
    else
      var last := ms[|ms| - 1];
      if last.name == name then Some(last.value) else LastOf(ms[..|ms| - 1], name)
  }

  lemma LessIsOneWay(a: Bytes, b: Bytes)
    requires Less(a, b)
    ensures a != b && !Less(b, a)
  {
    BeforeTotal(Codes(a), Codes(b));
  }

  lemma {:induction false} SameCodes(a: Bytes, b: Bytes)
    requires Codes(a) == Codes(b)
    ensures a == b
  {
    assert |a| == |Codes(a)| == |b|;
    forall i | 0 <= i < |a| ensures a[i] == b[i] { assert Codes(a)[i] == Codes(b)[i]; }
  }

  /** Of two names one comes first, or they are the same. */
  lemma LessTotal(a: Bytes, b: Bytes)
    ensures Less(a, b) || a == b || Less(b, a)
  {
    BeforeTotal(Codes(a), Codes(b));
    if Codes(a) == Codes(b) { SameCodes(a, b); }
  }

  /** Assigning replaces what the name had, leaves the other names as they are, and keeps the order. */
  lemma {:induction false} AssignGets(ms: seq<Member>, name: Bytes, value: Value)
    requires Ordered(ms)
    ensures var ms' := Assign(ms, name, value);
      && Ordered(ms') && Get(ms', name) == Some(value) && (forall x :: x != name ==> Get(ms', x) == Get(ms, x))
      && (forall m :: m in ms' ==> m in ms || m == Member(name, value))
  {
    if ms != [] && ms[0].name != name {
      var m := Member(name, value);
      LessTotal(name, ms[0].name);
      if Less(name, ms[0].name) {
        InFront(m, ms);
      } else {
        AssignGets(ms[1..], name, value);
        forall m | m in Assign(ms[1..], name, value) ensures Less(ms[0].name, m.name) {
          if m in ms[1..] { assert m in ms; }
        }
        ConsOrdered(ms[0], Assign(ms[1..], name, value));
      }
    } else if ms != [] {
      forall m | m in ms[1..] ensures Less(name, m.name) {}
      ConsOrdered(Member(name, value), ms[1..]);
      forall x | x != name ensures Get([Member(name, value)] + ms[1..], x) == Get(ms, x) {
        assert ([Member(name, value)] + ms[1..])[1..] == ms[1..];
      }
    }
  }

  lemma ConsOrdered(m: Member, ms: seq<Member>)
    requires Ordered(ms) && forall x :: x in ms ==> Less(m.name, x.name)
    ensures Ordered([m] + ms)
  {
    forall j | 0 < j < |[m] + ms| ensures Less(m.name, ([m] + ms)[j].name) { assert ms[j - 1] in ms; }
  }

  lemma InFront(m: Member, ms: seq<Member>)
    requires ms != [] && Ordered(ms) && Less(m.name, ms[0].name)
    ensures Ordered([m] + ms) && forall x :: Get([m] + ms, x) == if x == m.name then Some(m.value) else Get(ms, x)
  {
    forall x | x in ms ensures Less(m.name, x.name) {
      var i :| 0 <= i < |ms| && ms[i] == x;
      if i > 0 { BeforeTransitive(Codes(m.name), Codes(ms[0].name), Codes(x.name)); }
    }
    ConsOrdered(m, ms);
    assert ([m] + ms)[1..] == ms;
  }

  /** After assigning a list of entries each name has what the list gave it last, or what it had. */
  lemma {:induction false} AssignAllGets(ms: seq<Member>, more: seq<Member>)
    requires Ordered(ms)
    ensures var ms' := AssignAll(ms, more);
      && Ordered(ms')
      && (forall x :: Get(ms', x) == if LastOf(more, x).Some? then LastOf(more, x) else Get(ms, x))
      && (forall m :: m in ms' ==> m in ms || m in more)
    decreases |more|
  {
    if more != [] {
      var m := more[0];
      AssignGets(ms, m.name, m.value);
      AssignAllGets(Assign(ms, m.name, m.value), more[1..]);
      forall x ensures LastOf(more, x) == if LastOf(more[1..], x).Some? then LastOf(more[1..], x)
                                          else if m.name == x then Some(m.value) else None
      {
        LastOfCons(more, x);
      }
    }
  }

  lemma {:induction false} LastOfCons(ms: seq<Member>, x: Bytes)
    requires ms != []
    ensures LastOf(ms, x) == if LastOf(ms[1..], x).Some? then LastOf(ms[1..], x)
                             else if ms[0].name == x then Some(ms[0].value) else None
    decreases |ms|
  {
    if |ms| == 1 {
      assert ms[..0] == [] && ms[1..] == [];
    } else {
      var init := ms[..|ms| - 1];
      LastOfCons(init, x);
      assert init[1..] == ms[1..][..|ms| - 2] && ms[1..][|ms| - 2] == ms[|ms| - 1];
    }
  }

  lemma {:induction false} LastAssigned(ms: seq<Member>, name: Bytes, value: Value)
    requires forall i :: 0 <= i < |ms| ==> Less(ms[i].name, name)
    ensures Assign(ms, name, value) == ms + [Member(name, value)]
  {
    if ms != [] {
      LessIsOneWay(ms[0].name, name);
      LastAssigned(ms[1..], name, value);
      assert ms == [ms[0]] + ms[1..];
    }
  }

  /** Entries assigned in order are just appended. */
  lemma {:induction false} OrderedAssigned(read: seq<Member>, ms: seq<Member>)
    requires Ordered(read + ms)
    ensures AssignAll(read, ms) == read + ms
    decreases |ms|
  {
    if ms == [] {
      assert read + ms == read;
    } else {
      AfterAll(ms, read);
      LastAssigned(read, ms[0].name, ms[0].value);
      OrderedAssigned(read + [ms[0]], ms[1..]);
    }
  }

  lemma {:induction false} PrintedMember(m: Member, post: Bytes)
    requires WellFormed(m.value) && Ends(post)
    ensures ParseMember(PrintMember(m) + post) == Ok(m, post)
    decreases m, 0
  {
    var after := ":" + (Print(m.value) + post);
    assert PrintMember(m) + post == PrintString(m.name) + after;
    PrintedString(m.name, after);
    PrintStart(m.value);
    PrintedValue(m.value, post);
    NameThenValue(PrintMember(m) + post, m, after, post);
  }

  lemma NameThenValue(s: Bytes, m: Member, after: Bytes, post: Bytes)
    requires s != [] && !IsSpace(s[0]) && ParseString(s) == Ok(m.name, after)
    requires |after| > 1 && after[0] == ':' && !IsSpace(after[1]) && ParseValue(after[1..]) == Ok(m.value, post)
    ensures ParseMember(s) == Ok(m, post)
  {}

  lemma {:induction false} PrintedMembers(ms: seq<Member>, post: Bytes, read: seq<Member>)
    requires ms != [] && forall i :: 0 <= i < |ms| ==> WellFormed(ms[i].value)
    ensures ParseMembers(PrintMembers(ms) + "}" + post, read) == Ok(Object(AssignAll(read, ms)), post)
    decreases ms, 0
  {
    var m := ms[0];
    var next := Assign(read, m.name, m.value);
    MembersText(ms, post);
    if |ms| == 1 {
      PrintedMember(m, "}" + post);
      assert ("}" + post)[1..] == post && ms[1..] == [];
      OneMember(PrintMembers(ms) + "}" + post, read, m, "}" + post);
      assert AssignAll(read, ms) == AssignAll(next, []);
    } else {
      var tail := PrintMembers(ms[1..]) + "}" + post;
      PrintedMember(m, "," + tail);
      OneMember(PrintMembers(ms) + "}" + post, read, m, "," + tail);
      PrintedMembers(ms[1..], post, next);
    }
  }

  lemma MembersText(ms: seq<Member>, post: Bytes)
    requires ms != []
    ensures |ms| == 1 ==> PrintMembers(ms) + "}" + post == PrintMember(ms[0]) + ("}" + post)
    ensures |ms| > 1 ==>
      PrintMembers(ms) + "}" + post == PrintMember(ms[0]) + ("," + (PrintMembers(ms[1..]) + "}" + post))
  {
    if |ms| == 1 {
      RegroupLast(PrintMembers(ms), PrintMember(ms[0]), '}', post);
    } else {
      RegroupMore(PrintMembers(ms), PrintMember(ms[0]), PrintMembers(ms[1..]), '}', post);
    }
  }

  lemma RegroupLast(all: Bytes, a: Bytes, end: Byte, post: Bytes)
    requires all == a
    ensures all + [end] + post == a + ([end] + post)
  {}

  lemma RegroupMore(all: Bytes, a: Bytes, b: Bytes, end: Byte, post: Bytes)
    requires all == a + "," + b
    ensures all + [end] + post == a + ("," + (b + [end] + post))
  {}

  lemma AfterAll(ms: seq<Member>, read: seq<Member>)
    requires ms != [] && Ordered(read + ms)
    ensures forall i :: 0 <= i < |read| ==> Less(read[i].name, ms[0].name)
    ensures read + [ms[0]] + ms[1..] == read + ms
  {
    forall i | 0 <= i < |read| ensures Less(read[i].name, ms[0].name) {
      assert (read + ms)[i] == read[i] && (read + ms)[|read|] == ms[0];
    }
  }

  /** One entry read. */
  lemma OneMember(s: Bytes, read: seq<Member>, m: Member, rest: Bytes)
    requires ParseMember(s) == Ok(m, rest) && rest != []
    ensures var next := Assign(read, m.name, m.value);
      && (rest[0] == ',' ==> ParseMembers(s, read) == ParseMembers(rest[1..], next))
      && (rest[0] == '}' ==> ParseMembers(s, read) == Ok(Object(next), rest[1..]))
  {}

  lemma {:induction false} PrintedValue(v: Value, post: Bytes)
    requires WellFormed(v) && Ends(post)
    ensures ParseValue(Print(v) + post) == Ok(v, post)
    decreases v, 0
  {
    match v {
      case Null => PrintedWord(v, post);
      case Bool(_) => PrintedWord(v, post);
      case Number(text) => PrintedNumber(text, post);
      case String(bytes) => PrintedString(bytes, post);
      case Array(items) => PrintedArray(items, post);
      case Object(members) => PrintedObject(members, post);
    }
  }

  lemma {:induction false} PrintedArray(vs: seq<Value>, post: Bytes)
    requires forall i :: 0 <= i < |vs| ==> WellFormed(vs[i])
    ensures ParseValue("[" + PrintItems(vs) + "]" + post) == Ok(Array(vs), post)
    decreases vs, 1
  {
    var s := "[" + PrintItems(vs) + "]" + post;
    var t := PrintItems(vs) + "]" + post;
    assert s[1..] == t;
    if vs == [] {
      assert t == "]" + post && t[1..] == post;
    } else {
      PrintStart(vs[0]);
      assert t[0] == Print(vs[0])[0];
      PrintedItems(vs, post, []);
      assert [] + vs == vs;
    }
  }

  lemma {:induction false} PrintedObject(ms: seq<Member>, post: Bytes)
    requires Ordered(ms) && forall i :: 0 <= i < |ms| ==> WellFormed(ms[i].value)
    ensures ParseValue("{" + PrintMembers(ms) + "}" + post) == Ok(Object(ms), post)
    decreases ms, 2
  {
    PrintedEntries(ms, post);
    assert [] + ms == ms;
    OrderedAssigned([], ms);
  }

  lemma {:induction false} PrintedEntries(ms: seq<Member>, post: Bytes)
    requires forall i :: 0 <= i < |ms| ==> WellFormed(ms[i].value)
    ensures ParseValue("{" + PrintMembers(ms) + "}" + post) == Ok(Object(AssignAll([], ms)), post)
    decreases ms, 1
  {
    var s := "{" + PrintMembers(ms) + "}" + post;
    var t := PrintMembers(ms) + "}" + post;
    assert s[1..] == t;
    if ms == [] {
      assert t == "}" + post && t[1..] == post;
    } else {
      assert PrintMembers(ms)[0] == PrintMember(ms[0])[0] == '"';
      assert t[0] == '"';
      PrintedMembers(ms, post, []);
    }
  }

  /** Entries in any order and with repeated names, as another program may print them: the map is in order, and
      has of each name the last value that was given, and no other name. */
  lemma AnyOrder(ms: seq<Member>, s: Bytes)
    requires s == "{" + PrintMembers(ms) + "}" && forall i :: 0 <= i < |ms| ==> WellFormed(ms[i].value)
    ensures var r := ParseDocument(s);
      && r.Ok? && r.rest == [] && r.value.Object? && Ordered(r.value.members)
      && forall x :: Get(r.value.members, x) == LastOf(ms, x)
  {
    WholeEntries(ms, s, []);
    AssignAllGets([], ms);
  }

  lemma WholeEntries(ms: seq<Member>, s: Bytes, post: Bytes)
    requires forall i :: 0 <= i < |ms| ==> WellFormed(ms[i].value)
    requires s == "{" + PrintMembers(ms) + "}" && |post| == 0
    ensures ParseDocument(s) == Ok(Object(AssignAll([], ms)), [])
  {
    PrintedEntries(ms, post);
    assert s + post == s;
    WholeDocument(s, Object(AssignAll([], ms)));
  }

  lemma WholeDocument(s: Bytes, v: Value)
    requires s != [] && !IsSpace(s[0]) && ParseValue(s) == Ok(v, [])
    ensures ParseDocument(s) == Ok(v, [])
  {}

  /** Parser(v.dump()).parse() is v, and leaves nothing. */
  lemma RoundTrip(v: Value)
    requires WellFormed(v)
    ensures ParseDocument(Print(v)) == Ok(v, [])
  {
    assert Print(v) + [] == Print(v);
    PrintStart(v);
    PrintedValue(v, []);
  }

  /** Different values print differently. */
  lemma PrintInjective(v: Value, w: Value)
    requires WellFormed(v) && WellFormed(w) && Print(v) == Print(w)
    ensures v == w
  {
    RoundTrip(v);
    RoundTrip(w);
  }

  // ----- 64-bit numbers -----

  const ULLONG_MAX: nat := 0xFFFF_FFFF_FFFF_FFFF

  /** The longest run of digits, with `acc` before it. */
  function DigitRun(s: Bytes, acc: nat): nat {
    if s == [] || !Digit(s[0]) then acc else DigitRun(s[1..], 10 * acc + DigitValue(s[0]))
  }

  /** The digits strtoll and strtoull convert, after white space and a sign: their value, and
      whether the sign was a minus. No digits are 0. */
  function Magnitude(text: Bytes): (bool, nat) {
    var t := SkipCSpace(text);
    var minus := t != [] && t[0] == '-';
    (minus, DigitRun(if minus || (t != [] && t[0] == '+') then t[1..] else t, 0))
  }

  /** std::strtoull, base 10: what does not fit saturates, and a minus sign wraps around. */
  function AsU64(text: Bytes): nat {
    var (minus, n) := Magnitude(text);
    if n > ULLONG_MAX then ULLONG_MAX else if minus && n > 0 then ULLONG_MAX + 1 - n else n
  }

  const LLONG_MAX: int := 0x7FFF_FFFF_FFFF_FFFF

  /** std::strtoll, base 10: saturating at both ends. */
  function AsI64(text: Bytes): int {
    var (minus, magnitude) := Magnitude(text);
    var n: int := magnitude;
    if minus then (if n > LLONG_MAX + 1 then -LLONG_MAX - 1 else -n) else if n > LLONG_MAX then LLONG_MAX else n
  }

  /** std::to_string of an int64. */
  function SignedText(n: int): Bytes {
    if n < 0 then "-" + Text(-n) else Text(n)
  }

  lemma {:induction false} DigitRunAppends(s: Bytes, d: Byte, acc: nat)
    requires (forall c :: c in s ==> Digit(c)) && Digit(d)
    ensures DigitRun(s + [d], acc) == 10 * DigitRun(s, acc) + DigitValue(d)
  {
    if s == [] {
      assert ([d])[1..] == [] && s + [d] == [d];
    } else {
      assert (s + [d])[1..] == s[1..] + [d];
      DigitRunAppends(s[1..], d, 10 * acc + DigitValue(s[0]));
    }
  }

  lemma {:induction false} DigitRunOfText(n: nat)
    ensures forall c :: c in Text(n) ==> Digit(c)
    ensures DigitRun(Text(n), 0) == n
  {
    if n < 10 {
      assert Text(n)[1..] == [];
    } else {
      DigitRunOfText(n / 10);
      DigitRunAppends(Text(n / 10), DigitOf(n % 10), 0);
    }
  }

  lemma MagnitudeOfText(n: nat)
    ensures Magnitude(Text(n)) == (false, n) && Magnitude("-" + Text(n)) == (true, n)
    ensures Text(n) != [] && forall c :: c in Text(n) ==> NumberByte(c)
  {
    DigitRunOfText(n);
    TextCanonical(n);
    assert Text(n)[0] in Text(n);
    MagnitudeOfDigits(Text(n));
  }

  lemma MagnitudeOfDigits(s: Bytes)
    requires s != [] && Digit(s[0])
    ensures Magnitude(s) == (false, DigitRun(s, 0)) && Magnitude("-" + s) == (true, DigitRun(s, 0))
  {
    assert ("-" + s)[1..] == s;
  }

  /** A printed uint64 is read back as the same number: fencing tokens lose no digit. */
  lemma U64RoundTrip(n: nat)
    requires n <= ULLONG_MAX
    ensures ParseDocument(Print(Number(Text(n)))) == Ok(Number(Text(n)), []) && AsU64(Text(n)) == n
  {
    MagnitudeOfText(n);
    RoundTrip(Number(Text(n)));
  }

  /** ... and a printed int64. */
  lemma I64RoundTrip(n: int)
    requires -LLONG_MAX - 1 <= n <= LLONG_MAX
    ensures ParseDocument(Print(Number(SignedText(n)))) == Ok(Number(SignedText(n)), []) && AsI64(SignedText(n)) == n
  {
    MagnitudeOfText(if n < 0 then -n else n);
    SignedNumber(n);
    RoundTrip(Number(SignedText(n)));
  }

  lemma SignedNumber(n: int)
    ensures SignedText(n) != [] && forall c :: c in SignedText(n) ==> NumberByte(c)
  {
    MagnitudeOfText(if n < 0 then -n else n);
  }
}
