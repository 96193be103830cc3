/** Every way of writing a JSON value down, as RFC 8259 allows it: white space between any two tokens, escapes of
    every kind, entries in any order. The parser reads each of them as what it says. */
module JsonTexts {
  import opened BrokerTypes
  import opened WatermarkText
  import opened Json
  import opened JsonRoundTrips

  // ----- The ways to write -----

  /** A byte as it is; a backslash and a letter; or a backslash, a "u" and four hex digits (or, which the parser
      allows too, four bytes that std::stoul makes a number of). */
  datatype Piece = Plain(c: Byte) | Short(e: Byte) | Coded(digits: Bytes)

  /** A value as written: `lead` is the space in empty brackets, the others stand before and after what they name. */
  datatype Text =
    | TNull
    | TBool(b: bool)
    | TNumber(text: Bytes)
    | TString(pieces: seq<Piece>)
    | TArray(lead: Bytes, items: seq<Item>)
    | TObject(lead: Bytes, entries: seq<Entry>)

  datatype Item = Item(before: Bytes, value: Text, after: Bytes)
  datatype Entry = Entry(before: Bytes, name: seq<Piece>, afterName: Bytes, beforeValue: Bytes, value: Text,
                         after: Bytes)

  /** Space, tab, line feed and carriage return (section 2). */
  ghost predicate White(s: Bytes) {
    forall c :: c in s ==> c as int == 0x20 || c as int == 0x09 || c as int == 0x0A || c as int == 0x0D
  }

  predicate HexDigits(s: Bytes) {
    |s| == 4 && forall c :: c in s ==> HexValue(c).Some?
  }

  /** The letters that may follow a backslash (section 7), but for "u". */
  const SHORT: Bytes := "\"\\/bfnrt"

  ghost predicate GoodPiece(p: Piece) {
    match p
    case Plain(c) => c != '"' && c != '\\'
    case Short(e) => e in SHORT
    case Coded(digits) => |digits| == 4 && Stoul(digits).Some?
  }

  ghost predicate GoodString(ps: seq<Piece>) {
    forall p :: p in ps ==> GoodPiece(p)
  }

  ghost predicate Good(t: Text)
    decreases t
  {
    match t
    case TNumber(text) => text != [] && forall c :: c in text ==> c in "0123456789+-.eE"
    case TString(pieces) => GoodString(pieces)
    case TArray(lead, items) =>
      White(lead) && forall i :: 0 <= i < |items| ==> GoodItem(items[i])
    case TObject(lead, entries) => White(lead) && forall i :: 0 <= i < |entries| ==> GoodEntry(entries[i])
    case _ => true
  }

  ghost predicate GoodItem(i: Item)
    decreases i
  {
    White(i.before) && Good(i.value) && White(i.after)
  }

  ghost predicate GoodEntry(e: Entry)
    decreases e
  {
    && White(e.before) && GoodString(e.name) && White(e.afterName)
    && White(e.beforeValue) && Good(e.value) && White(e.after)
  }

  // ----- How they are spelled -----

  function SpellPiece(p: Piece): Bytes {
    match p
    case Plain(c) => [c]
    case Short(e) => "\\" + [e]
    case Coded(digits) => "\\u" + digits
  }

  function SpellPieces(ps: seq<Piece>): Bytes {
    if ps == [] then [] else SpellPiece(ps[0]) + SpellPieces(ps[1..])
  }

  function SpellString(ps: seq<Piece>): Bytes {
    "\"" + SpellPieces(ps) + "\""
  }

  function Spell(t: Text): Bytes
    decreases t, 2
  {
    match t
    case TNull => "null"
    case TBool(b) => if b then "true" else "false"
    case TNumber(text) => text
    case TString(pieces) => SpellString(pieces)
    case TArray(lead, items) => "[" + (if items == [] then lead else SpellItems(items)) + "]"
    case TObject(lead, entries) => "{" + (if entries == [] then lead else SpellEntries(entries)) + "}"
  }

  function SpellItem(i: Item): Bytes
    decreases i
  {
    i.before + (Spell(i.value) + i.after)
  }

  function SpellItems(vs: seq<Item>): Bytes
    requires vs != []
    decreases vs
  {
    if |vs| == 1 then SpellItem(vs[0]) else SpellItem(vs[0]) + "," + SpellItems(vs[1..])
  }

  function SpellEntry(e: Entry): Bytes
    decreases e
  {
    e.before + (SpellString(e.name) + (e.afterName + (":" + (e.beforeValue + (Spell(e.value) + e.after)))))
  }

  function SpellEntries(es: seq<Entry>): Bytes
    requires es != []
    decreases es
  {
    if |es| == 1 then SpellEntry(es[0]) else SpellEntry(es[0]) + "," + SpellEntries(es[1..])
  }

  // ----- What they mean -----

  /** Section 7: the control characters by their letters, the others stand for themselves. */
  function ShortMeans(e: Byte): int {
    if e == 'b' then 0x08 else if e == 'f' then 0x0C else if e == 'n' then 0x0A
    else if e == 'r' then 0x0D else if e == 't' then 0x09 else e as int
  }

  function Code(digits: Bytes): nat
    requires HexDigits(digits)
  {
    ((HexValue(digits[0]).value * 16 + HexValue(digits[1]).value) * 16 + HexValue(digits[2]).value) * 16
    + HexValue(digits[3]).value
  }

  /** The code of one, two or three bytes of UTF-8 (RFC 3629, section 3). */
  function Utf8Code(s: Bytes): int
    requires 1 <= |s| <= 3
  {
    if |s| == 1 then s[0] as int
    else if |s| == 2 then (s[0] as int - 0xC0) * 64 + (s[1] as int - 0x80)
    else (s[0] as int - 0xE0) * 4096 + (s[1] as int - 0x80) * 64 + (s[2] as int - 0x80)
  }

  /** The bytes are the UTF-8 form of the code: as few as there are, the later ones from 0x80 to 0xBF. */
  ghost predicate Utf8(s: Bytes, code: nat) {
    && |s| == (if code < 0x80 then 1 else if code < 0x800 then 2 else 3) && Utf8Code(s) == code
    && forall i :: 0 < i < |s| ==> 0x80 <= s[i] as int <= 0xBF
  }

  ghost predicate PieceMeans(p: Piece, s: Bytes) {
    match p
    case Plain(c) => s == [c]
    case Short(e) => |s| == 1 && s[0] as int == ShortMeans(e)
    case Coded(digits) => HexDigits(digits) ==> Utf8(s, Code(digits))
  }

  /** `s` is made of what the pieces mean, one after another. */
  ghost predicate StringMeans(ps: seq<Piece>, s: Bytes)
    decreases |ps|
  {
    if ps == [] then s == []
    else exists n :: 0 <= n <= |s| && PieceMeans(ps[0], s[..n]) && StringMeans(ps[1..], s[n..])
  }

  /** Value `v` is what the text says: an object has of each name the last value that is given. */
  ghost predicate Means(t: Text, v: Value)
    decreases t, 2
  {
    match t
    case TNull => v == Null
    case TBool(b) => v == Bool(b)
    case TNumber(text) => v == Number(text)
    case TString(pieces) => v.String? && StringMeans(pieces, v.bytes)
    case TArray(_, items) =>
      v.Array? && |v.items| == |items| && forall i :: 0 <= i < |items| ==> Means(items[i].value, v.items[i])
    case TObject(_, entries) =>
      v.Object? && Ordered(v.members) && exists ms :: AllMean(entries, ms) && Gives(v.members, ms)
  }

  /** The entries are those of the list, one by one. */
  ghost predicate AllMean(es: seq<Entry>, ms: seq<Member>)
    decreases es
  {
    |ms| == |es| && forall i :: 0 <= i < |es| ==> StringMeans(es[i].name, ms[i].name) && Means(es[i].value, ms[i].value)
  }

  ghost predicate Gives(members: seq<Member>, ms: seq<Member>) {
    forall x :: Get(members, x) == LastOf(ms, x)
  }

  // ----- What the parser reads -----

  function Said(p: Piece): Bytes
    requires GoodPiece(p)
  {
    match p
    case Plain(c) => [c]
    case Short(e) => [SimpleEscape(e).value]
    case Coded(digits) => CodeBytes(Stoul(digits).value)
  }

  function SaidAll(ps: seq<Piece>): Bytes
    requires GoodString(ps)
  {
    if ps == [] then [] else Said(ps[0]) + SaidAll(ps[1..])
  }

  lemma CodeIsRun(s: Bytes)
    requires HexDigits(s)
    ensures Stoul(s) == Some(Code(s)) && Code(s) < 0x1_0000
  {
    forall i | 0 <= i < 4 ensures HexValue(s[i]).Some? && HexValue(s[i]).value < 16 { assert s[i] in s; }
    FourRun(s);
    FourDigits(HexValue(s[0]).value, HexValue(s[1]).value, HexValue(s[2]).value, HexValue(s[3]).value);
  }

  lemma FourDigits(a: nat, b: nat, c: nat, d: nat)
    requires a < 16 && b < 16 && c < 16 && d < 16
    ensures ((a * 16 + b) * 16 + c) * 16 + d < 0x1_0000
  {}

  lemma FourRun(s: Bytes)
    requires HexDigits(s) && forall i :: 0 <= i < 4 ==> HexValue(s[i]).Some?
    ensures HexRun(s, 0) == Code(s)
  {
    var a, b, c, d := HexValue(s[0]).value, HexValue(s[1]).value, HexValue(s[2]).value, HexValue(s[3]).value;
    assert HexRun(s, 0) == HexRun(s[1..], a);
    assert s[1..][1..] == s[2..] && HexRun(s[1..], a) == HexRun(s[2..], 16 * a + b);
    assert s[2..][1..] == s[3..] && HexRun(s[2..], 16 * a + b) == HexRun(s[3..], 16 * (16 * a + b) + c);
    assert s[3..][1..] == [] && HexRun(s[3..], 16 * (16 * a + b) + c) == HexRun([], 16 * (16 * (16 * a + b) + c) + d);
  }

  lemma LowAndHigh(code: nat)
    requires code < 0x1_0000
    ensures code == code / 64 * 64 + code % 64 && code / 64 == code / 4096 * 64 + code / 64 % 64 && code / 4096 < 16
    ensures code < 0x800 ==> code / 64 < 32
  {}

  lemma TwoBytes(high: nat, low: nat)
    requires high < 32 && low < 64
    ensures var s := [ByteOf(0xC0 + high), ByteOf(0x80 + low)];
      Utf8Code(s) == high * 64 + low && 0x80 <= s[1] as int <= 0xBF
  {}

  lemma ThreeBytes(high: nat, mid: nat, low: nat)
    requires high < 16 && mid < 64 && low < 64
    ensures var s := [ByteOf(0xE0 + high % 32), ByteOf(0x80 + mid), ByteOf(0x80 + low)];
      && Utf8Code(s) == high * 4096 + mid * 64 + low
      && 0x80 <= s[1] as int <= 0xBF && 0x80 <= s[2] as int <= 0xBF
  {}

  /** The bytes of a code below 2^16 are its UTF-8 form. */
  lemma CodeBytesUtf8(code: nat)
    requires code < 0x1_0000
    ensures Utf8(CodeBytes(code), code)
  {
    LowAndHigh(code);
    if 0x80 <= code < 0x800 {
      TwoBytes(code / 64, code % 64);
    } else if code >= 0x800 {
      ThreeBytes(code / 4096, code / 64 % 64, code % 64);
    }
  }

  lemma SaidMeans(p: Piece)
    requires GoodPiece(p)
    ensures PieceMeans(p, Said(p)) && (p.Short? ==> SimpleEscape(p.e).Some?)
  {
    if p.Coded? && HexDigits(p.digits) {
      CodeIsRun(p.digits);
      CodeBytesUtf8(Code(p.digits));
    }
  }

  lemma {:induction false} SaidAllMeans(ps: seq<Piece>)
    requires GoodString(ps)
    ensures StringMeans(ps, SaidAll(ps))
    decreases |ps|
  {
    if ps != [] {
      var a, b := Said(ps[0]), SaidAll(ps[1..]);
      SaidMeans(ps[0]);
      SaidAllMeans(ps[1..]);
      assert (a + b)[..|a|] == a && (a + b)[|a|..] == b;
    }
  }

  // ----- Strings -----

  lemma OnePiece(p: Piece, rest: Bytes, out: Bytes)
    requires GoodPiece(p)
    ensures ParseStringFrom(SpellPiece(p) + rest, out) == ParseStringFrom(rest, out + Said(p))
  {
    var s := SpellPiece(p) + rest;
    match p {
      case Plain(c) => assert s[1..] == rest;
      case Short(e) => assert s[2..] == rest;
      case Coded(digits) =>
        assert s[2..6] == digits && s[6..] == rest;
    }
  }

  /** A piece, and then the others. */
  lemma PieceThenRest(p: Piece, others: Bytes, said: Bytes, post: Bytes, out: Bytes)
    requires GoodPiece(p) && ParseStringFrom(others + "\"" + post, out + Said(p)) == Ok(out + Said(p) + said, post)
    ensures ParseStringFrom(SpellPiece(p) + others + "\"" + post, out) == Ok(out + (Said(p) + said), post)
  {
    EscapeGroups(SpellPiece(p) + others, SpellPiece(p), others, post);
    OnePiece(p, others + "\"" + post, out);
    assert out + Said(p) + said == out + (Said(p) + said);
  }

  lemma {:induction false} AllPieces(ps: seq<Piece>, post: Bytes, out: Bytes)
    requires GoodString(ps)
    ensures ParseStringFrom(SpellPieces(ps) + "\"" + post, out) == Ok(out + SaidAll(ps), post)
    decreases |ps|
  {
    if ps == [] {
      ClosingQuote(SpellPieces(ps) + "\"" + post, post, out);
      assert out + SaidAll(ps) == out;
    } else {
      AllPieces(ps[1..], post, out + Said(ps[0]));
      PieceThenRest(ps[0], SpellPieces(ps[1..]), SaidAll(ps[1..]), post, out);
    }
  }

  lemma SpelledString(ps: seq<Piece>, post: Bytes)
    requires GoodString(ps)
    ensures ParseString(SpellString(ps) + post) == Ok(SaidAll(ps), post)
  {
    var t := SpellString(ps) + post;
    assert t[1..] == SpellPieces(ps) + "\"" + post;
    AllPieces(ps, post, []);
    assert [] + SaidAll(ps) == SaidAll(ps);
  }

  // ----- White space -----

  lemma {:induction false} SkipWhite(space: Bytes, rest: Bytes)
    requires White(space) && (rest == [] || !IsSpace(rest[0]))
    ensures SkipSpace(space + rest) == rest
  {
    if space == [] {
      assert space + rest == rest;
    } else {
      assert White(space[1..]) by { forall c | c in space[1..] ensures c in space {} }
      assert space[0] in space && (space + rest)[1..] == space[1..] + rest;
      SkipWhite(space[1..], rest);
    }
  }

  lemma WhiteEnds(space: Bytes, rest: Bytes)
    requires White(space) && Ends(rest)
    ensures Ends(space + rest)
  {
    if space != [] { assert space[0] in space; }
  }

  // ----- Values -----

  /** The value read. */
  function Read(t: Text): Value
    requires Good(t)
    decreases t, 2
  {
    match t
    case TNull => Null
    case TBool(b) => Bool(b)
    case TNumber(text) => Number(text)
    case TString(pieces) => String(SaidAll(pieces))
    case TArray(_, items) => Array(ReadItems(items))
    case TObject(_, entries) => Object(AssignAll([], ReadEntries(entries)))
  }

  function ReadItems(vs: seq<Item>): seq<Value>
    requires forall i :: 0 <= i < |vs| ==> GoodItem(vs[i])
    decreases vs
  {
    if vs == [] then []
    else
      assert GoodItem(vs[0]);
      [Read(vs[0].value)] + ReadItems(vs[1..])
  }

  function ReadEntries(es: seq<Entry>): seq<Member>
    requires forall i :: 0 <= i < |es| ==> GoodEntry(es[i])
    decreases es
  {
    if es == [] then []
    else
      assert GoodEntry(es[0]);
      [Member(SaidAll(es[0].name), Read(es[0].value))] + ReadEntries(es[1..])
  }

  /** A value starts with no space and no closing bracket. */
  lemma SpellStart(t: Text)
    requires Good(t)
    ensures Spell(t) != [] && !IsSpace(Spell(t)[0]) && Spell(t)[0] != ']' && Spell(t)[0] != '}'
  {
    if t.TNumber? { assert t.text[0] in t.text; }
  }

  lemma NumberBytes(text: Bytes)
    requires forall c :: c in text ==> c in "0123456789+-.eE"
    ensures forall c :: c in text ==> NumberByte(c)
  {}

  lemma {:induction false} SpelledValue(t: Text, post: Bytes)
    requires Good(t) && (t.TNumber? ==> Ends(post))
    ensures ParseValue(Spell(t) + post) == Ok(Read(t), post)
    decreases t, 2
  {
    match t {
      case TNull => PrintedWord(Null, post);
      case TBool(b) => PrintedWord(Bool(b), post);
      case TNumber(text) =>
        NumberBytes(text);
        PrintedNumber(text, post);
      case TString(pieces) => SpelledString(pieces, post);
      case TArray(lead, items) => SpelledArray(Spell(t) + post, lead, items, post);
      case TObject(lead, entries) => SpelledObject(Spell(t) + post, lead, entries, post);
    }
  }

  lemma OpenArray(s: Bytes, t: Bytes)
    requires s != [] && s[0] == '[' && s[1..] == t && SkipSpace(t) != []
    ensures SkipSpace(t)[0] == ']' ==> ParseValue(s) == Ok(Array([]), SkipSpace(t)[1..])
    ensures SkipSpace(t)[0] != ']' ==> ParseValue(s) == ParseItems(t, [])
  {
    ItemsSkipped(t, []);
  }

  lemma {:induction false} SpelledArray(s: Bytes, lead: Bytes, items: seq<Item>, post: Bytes)
    requires White(lead) && forall i :: 0 <= i < |items| ==> GoodItem(items[i])
    requires s == "[" + (if items == [] then lead else SpellItems(items)) + "]" + post
    ensures ParseValue(s) == Ok(Array(ReadItems(items)), post)
    decreases items, 2
  {
    var t := s[1..];
    if items == [] {
      assert t == lead + ("]" + post) && ("]" + post)[1..] == post;
      SkipWhite(lead, "]" + post);
    } else {
      assert t == SpellItems(items) + "]" + post;
      SpelledItems(items, post, []);
      assert [] + ReadItems(items) == ReadItems(items);
    }
    OpenArray(s, t);
  }

  lemma SkipTwice(s: Bytes)
    ensures SkipSpace(SkipSpace(s)) == SkipSpace(s)
  {}

  lemma ItemsSkipped(s: Bytes, read: seq<Value>)
    ensures ParseItems(SkipSpace(s), read) == ParseItems(s, read)
  {
    SkipTwice(s);
  }

  lemma MembersSkipped(s: Bytes, read: seq<Member>)
    ensures ParseMembers(SkipSpace(s), read) == ParseMembers(s, read)
  {
    SkipTwice(s);
  }

  // ----- Items -----

  /** An item, and what stands after it. */
  lemma {:induction false} OneSpelled(i: Item, more: Bytes)
    requires GoodItem(i) && more != [] && !IsSpace(more[0]) && !NumberByte(more[0])
    ensures var s := SpellItem(i) + more;
      && ParseValue(SkipSpace(s)) == Ok(Read(i.value), i.after + more) && SkipSpace(i.after + more) == more
      && SkipSpace(s) != [] && SkipSpace(s)[0] != ']'
    decreases i
  {
    var rest := Spell(i.value) + (i.after + more);
    assert SpellItem(i) + more == i.before + rest;
    SpellStart(i.value);
    SkipWhite(i.before, rest);
    WhiteEnds(i.after, more);
    SpelledValue(i.value, i.after + more);
    SkipWhite(i.after, more);
  }

  lemma NextItem(s: Bytes, read: seq<Value>, v: Value, rest: Bytes, more: Bytes)
    requires ParseValue(SkipSpace(s)) == Ok(v, rest) && SkipSpace(rest) == more && more != []
    ensures more[0] == ',' ==> ParseItems(s, read) == ParseItems(more[1..], read + [v])
    ensures more[0] == ']' ==> ParseItems(s, read) == Ok(Array(read + [v]), more[1..])
  {}

  lemma {:induction false} SpelledItems(vs: seq<Item>, post: Bytes, read: seq<Value>)
    requires vs != [] && forall i :: 0 <= i < |vs| ==> GoodItem(vs[i])
    ensures var s := SpellItems(vs) + "]" + post;
      && ParseItems(s, read) == Ok(Array(read + ReadItems(vs)), post)
      && SkipSpace(s) != [] && SkipSpace(s)[0] != ']'
    decreases vs, 0
  {
    var s, i := SpellItems(vs) + "]" + post, vs[0];
    var v := Read(i.value);
    if |vs| == 1 {
      var more := "]" + post;
      RegroupLast(SpellItems(vs), SpellItem(i), ']', post);
      OneSpelled(i, more);
      NextItem(s, read, v, i.after + more, more);
      assert more[1..] == post && vs[1..] == [] && ReadItems(vs) == [v];
    } else {
      var tail := SpellItems(vs[1..]) + "]" + post;
      var more := "," + tail;
      RegroupMore(SpellItems(vs), SpellItem(i), SpellItems(vs[1..]), ']', post);
      OneSpelled(i, more);
      NextItem(s, read, v, i.after + more, more);
      SpelledItems(vs[1..], post, read + [v]);
      assert more[1..] == tail && read + [v] + ReadItems(vs[1..]) == read + ReadItems(vs);
    }
  }

  // ----- Entries -----

  /** An entry, and what stands after it. */
  lemma {:induction false} OneEntry(e: Entry, more: Bytes)
    requires GoodEntry(e) && more != [] && !IsSpace(more[0]) && !NumberByte(more[0])
    ensures var s := SpellEntry(e) + more;
      && ParseMember(s) == Ok(Member(SaidAll(e.name), Read(e.value)), e.after + more)
      && SkipSpace(e.after + more) == more && SkipSpace(s) != [] && SkipSpace(s)[0] != '}'
    decreases e, 0
  {
    var value := Spell(e.value) + (e.after + more);
    var colon := ":" + (e.beforeValue + value);
    var named := SpellString(e.name) + (e.afterName + colon);
    assert SpellEntry(e) + more == e.before + named;
    SkipWhite(e.before, named);
    SpelledString(e.name, e.afterName + colon);
    SkipWhite(e.afterName, colon);
    SpellStart(e.value);
    assert colon[1..] == e.beforeValue + value;
    SkipWhite(e.beforeValue, value);
    WhiteEnds(e.after, more);
    SpelledValue(e.value, e.after + more);
    SkipWhite(e.after, more);
  }

  lemma NextEntry(s: Bytes, read: seq<Member>, e: Member, rest: Bytes, more: Bytes)
    requires ParseMember(s) == Ok(e, rest) && SkipSpace(rest) == more && more != []
    ensures var next := Assign(read, e.name, e.value);
      && (more[0] == ',' ==> ParseMembers(s, read) == ParseMembers(more[1..], next))
      && (more[0] == '}' ==> ParseMembers(s, read) == Ok(Object(next), more[1..]))
  {}

  lemma {:induction false} EntryThen(s: Bytes, e: Entry, more: Bytes, read: seq<Member>)
    requires GoodEntry(e) && s == SpellEntry(e) + more && more != [] && (more[0] == ',' || more[0] == '}')
    ensures var next := Assign(read, SaidAll(e.name), Read(e.value));
      && (more[0] == ',' ==> ParseMembers(s, read) == ParseMembers(more[1..], next))
      && (more[0] == '}' ==> ParseMembers(s, read) == Ok(Object(next), more[1..]))
      && SkipSpace(s) != [] && SkipSpace(s)[0] != '}'
    decreases e, 1
  {
    OneEntry(e, more);
    NextEntry(s, read, Member(SaidAll(e.name), Read(e.value)), e.after + more, more);
  }

  /** An entry in front of others, or alone. */
  lemma EntryInFront(e: Entry, others: seq<Entry>, read: seq<Member>)
    requires GoodEntry(e) && forall i :: 0 <= i < |others| ==> GoodEntry(others[i])
    ensures var (es, next) := ([e] + others, Assign(read, SaidAll(e.name), Read(e.value)));
      && (forall i :: 0 <= i < |es| ==> GoodEntry(es[i]))
      && AssignAll(read, ReadEntries(es)) == AssignAll(next, ReadEntries(others))
      && SpellEntries(es) == if others == [] then SpellEntry(e) else SpellEntry(e) + "," + SpellEntries(others)
  {
    var es, m := [e] + others, Member(SaidAll(e.name), Read(e.value));
    assert es[1..] == others;
    assert ReadEntries(es) == [m] + ReadEntries(others) && ReadEntries(es)[1..] == ReadEntries(others);
  }

  lemma {:induction false} SpelledEntries(es: seq<Entry>, post: Bytes, read: seq<Member>)
    requires es != [] && forall i :: 0 <= i < |es| ==> GoodEntry(es[i])
    ensures var s := SpellEntries(es) + "}" + post;
      && ParseMembers(s, read) == Ok(Object(AssignAll(read, ReadEntries(es))), post)
      && SkipSpace(s) != [] && SkipSpace(s)[0] != '}'
    decreases es, 0
  {
    var s, e, others := SpellEntries(es) + "}" + post, es[0], es[1..];
    assert es == [e] + others;
    EntryInFront(e, others, read);
    if others == [] {
      var more := "}" + post;
      RegroupLast(SpellEntries(es), SpellEntry(e), '}', post);
      EntryThen(s, e, more, read);
      assert more[1..] == post;
    } else {
      var tail := SpellEntries(others) + "}" + post;
      var more := "," + tail;
      RegroupMore(SpellEntries(es), SpellEntry(e), SpellEntries(others), '}', post);
      EntryThen(s, e, more, read);
      SpelledEntries(others, post, Assign(read, SaidAll(e.name), Read(e.value)));
      assert more[1..] == tail;
    }
  }

  lemma OpenObject(s: Bytes, t: Bytes)
    requires s != [] && s[0] == '{' && s[1..] == t && SkipSpace(t) != []
    ensures SkipSpace(t)[0] == '}' ==> ParseValue(s) == Ok(Object([]), SkipSpace(t)[1..])
    ensures SkipSpace(t)[0] != '}' ==> ParseValue(s) == ParseMembers(t, [])
  {
    MembersSkipped(t, []);
  }

  lemma {:induction false} SpelledObject(s: Bytes, lead: Bytes, entries: seq<Entry>, post: Bytes)
    requires White(lead) && forall i :: 0 <= i < |entries| ==> GoodEntry(entries[i])
    requires s == "{" + (if entries == [] then lead else SpellEntries(entries)) + "}" + post
    ensures ParseValue(s) == Ok(Object(AssignAll([], ReadEntries(entries))), post)
    decreases entries, 2
  {
    var t := s[1..];
    if entries == [] {
      assert t == lead + ("}" + post) && ("}" + post)[1..] == post;
      SkipWhite(lead, "}" + post);
    } else {
      assert t == SpellEntries(entries) + "}" + post;
      SpelledEntries(entries, post, []);
    }
    OpenObject(s, t);
  }

  // ----- What is read is what was meant -----

  lemma {:induction false} ReadMeans(t: Text)
    requires Good(t)
    ensures Means(t, Read(t))
    decreases t, 2
  {
    match t {
      case TString(pieces) => SaidAllMeans(pieces);
      case TArray(_, items) => ReadItemsMean(items);
      case TObject(_, entries) =>
        ReadEntriesMean(entries);
        AssignAllGets([], ReadEntries(entries));
        assert Gives(Read(t).members, ReadEntries(entries));
      case _ =>
    }
  }

  lemma {:induction false} ReadItemsMean(vs: seq<Item>)
    requires forall i :: 0 <= i < |vs| ==> GoodItem(vs[i])
    ensures |ReadItems(vs)| == |vs| && forall i :: 0 <= i < |vs| ==> Means(vs[i].value, ReadItems(vs)[i])
    decreases vs
  {
    if vs != [] {
      ReadMeans(vs[0].value);
      ReadItemsMean(vs[1..]);
      forall i | 0 < i < |vs| ensures Means(vs[i].value, ReadItems(vs)[i]) { assert vs[i] == vs[1..][i - 1]; }
    }
  }

  lemma {:induction false} ReadEntriesMean(es: seq<Entry>)
    requires forall i :: 0 <= i < |es| ==> GoodEntry(es[i])
    ensures AllMean(es, ReadEntries(es))
    decreases es
  {
    if es != [] {
      ReadMeans(es[0].value);
      SaidAllMeans(es[0].name);
      ReadEntriesMean(es[1..]);
      var ms := ReadEntries(es);
      forall i | 0 < i < |es| ensures StringMeans(es[i].name, ms[i].name) && Means(es[i].value, ms[i].value) {
        assert es[i] == es[1..][i - 1] && ms[i] == ReadEntries(es[1..])[i - 1];
      }
    }
  }

  /** However a value is written, with white space before it, the parser reads what it says; what follows the
      value, and the white space after it, is left. */
  lemma ReadsEveryText(before: Bytes, t: Text, rest: Bytes)
    requires White(before) && Good(t) && (t.TNumber? ==> Ends(rest))
    ensures var r := ParseDocument(before + (Spell(t) + rest)); r.Ok? && r.rest == SkipSpace(rest) && Means(t, r.value)
  {
    SpellStart(t);
    SkipWhite(before, Spell(t) + rest);
    SpelledValue(t, rest);
    ReadMeans(t);
  }

  // ----- Nothing else is read -----

  /** The white space skipped. */
  lemma {:induction false} Skipped(s: Bytes) returns (space: Bytes)
    ensures White(space) && s == space + SkipSpace(s)
  {
    space := [];
    if s != [] && IsSpace(s[0]) {
      var more := Skipped(s[1..]);
      space := [s[0]] + more;
      SpaceInFront(s, more);
    }
  }

  lemma SpaceInFront(s: Bytes, more: Bytes)
    requires s != [] && IsSpace(s[0]) && White(more) && s[1..] == more + SkipSpace(s[1..])
    ensures White([s[0]] + more) && s == [s[0]] + more + SkipSpace(s)
  {
    WhiteCons(s[0], more);
    SameText(s, s[0], more, SkipSpace(s[1..]));
  }

  lemma WhiteCons(c: Byte, more: Bytes)
    requires IsSpace(c) && White(more)
    ensures White([c] + more)
  {
    forall x | x in [c] + more ensures x == c || x in more {}
  }

  lemma SameText(s: Bytes, c: Byte, more: Bytes, rest: Bytes)
    requires s != [] && s[0] == c && s[1..] == more + rest
    ensures s == [c] + more + rest
  {
    assert s == [c] + s[1..];
  }

  lemma {:induction false} AcceptedPieces(s: Bytes, out: Bytes) returns (ps: seq<Piece>)
    requires ParseStringFrom(s, out).Ok?
    ensures var r := ParseStringFrom(s, out);
      GoodString(ps) && s == SpellPieces(ps) + "\"" + r.rest && r.value == out + SaidAll(ps)
    decreases |s|
  {
    var r := ParseStringFrom(s, out);
    if s[0] == '"' {
      ps := [];
      assert s == "\"" + s[1..] && out + SaidAll(ps) == out;
    } else {
      var p := FirstPiece(s, out);
      var n := |SpellPiece(p)|;
      OnePiece(p, s[n..], out);
      var more := AcceptedPieces(s[n..], out + Said(p));
      ps := [p] + more;
      PieceInFront(p, more, ps, out, r.rest);
    }
  }

  lemma PieceInFront(p: Piece, more: seq<Piece>, ps: seq<Piece>, out: Bytes, rest: Bytes)
    requires GoodPiece(p) && GoodString(more) && ps == [p] + more
    ensures GoodString(ps) && out + Said(p) + SaidAll(more) == out + SaidAll(ps)
    ensures SpellPiece(p) + (SpellPieces(more) + "\"" + rest) == SpellPieces(ps) + "\"" + rest
  {
    assert ps[1..] == more;
    EscapeGroups(SpellPieces(ps), SpellPiece(p), SpellPieces(more), rest);
  }

  /** What a string that is read starts with. */
  lemma FirstPiece(s: Bytes, out: Bytes) returns (p: Piece)
    requires s != [] && s[0] != '"' && ParseStringFrom(s, out).Ok?
    ensures GoodPiece(p) && SpellPiece(p) <= s && SpellPiece(p) != [] && s == SpellPiece(p) + s[|SpellPiece(p)|..]
  {
    if s[0] != '\\' {
      p := Plain(s[0]);
    } else if SimpleEscape(s[1]).Some? {
      p := Short(s[1]);
      assert s[..2] == SpellPiece(p);
    } else {
      p := Coded(s[2..6]);
      assert s[..6] == SpellPiece(p);
    }
  }

  lemma AcceptedString(s: Bytes) returns (ps: seq<Piece>)
    requires ParseString(s).Ok?
    ensures GoodString(ps) && s == SpellString(ps) + ParseString(s).rest && ParseString(s).value == SaidAll(ps)
  {
    ps := AcceptedPieces(s[1..], []);
    assert [] + SaidAll(ps) == SaidAll(ps);
    assert s == "\"" + s[1..];
  }

  lemma AcceptedNumber(s: Bytes) returns (t: Text)
    requires ParseNumber(s).Ok?
    ensures t.TNumber? && Good(t) && s == Spell(t) + ParseNumber(s).rest && ParseNumber(s).value == Read(t)
    ensures Ends(ParseNumber(s).rest)
  {
    var n := NumberLength(s);
    t := TNumber(s[..n]);
    forall c | c in s[..n] ensures c in "0123456789+-.eE" {
      var i :| 0 <= i < n && s[i] == c;
      NumberByteIs(c);
    }
    assert s == s[..n] + s[n..];
  }

  lemma NumberByteIs(c: Byte)
    requires NumberByte(c)
    ensures c in "0123456789+-.eE"
  {}

  lemma AcceptedWord(s: Bytes) returns (t: Text)
    requires s != [] && (s[0] == 't' || s[0] == 'f' || s[0] == 'n') && ParseValue(s).Ok?
    ensures Good(t) && s == Spell(t) + ParseValue(s).rest && ParseValue(s).value == Read(t)
  {
    if s[0] == 'n' {
      t := TNull;
      assert s == "null" + s[4..];
    } else if s[0] == 't' {
      t := TBool(true);
      assert s == "true" + s[4..];
    } else {
      t := TBool(false);
      assert s == "false" + s[5..];
    }
  }

  /** Whatever the parser reads is a text, spelled out before what is left. */
  lemma {:induction false} AcceptedValue(s: Bytes) returns (t: Text)
    requires ParseValue(s).Ok?
    ensures Good(t) && s == Spell(t) + ParseValue(s).rest && ParseValue(s).value == Read(t)
    ensures t.TNumber? ==> Ends(ParseValue(s).rest)
    decreases |s|, 1
  {
    if s[0] == '{' {
      t := AcceptedObject(s);
    } else if s[0] == '[' {
      t := AcceptedArray(s);
    } else if s[0] == '"' {
      var ps := AcceptedString(s);
      t := TString(ps);
    } else if s[0] == 't' || s[0] == 'f' || s[0] == 'n' {
      t := AcceptedWord(s);
    } else {
      t := AcceptedNumber(s);
    }
  }

  lemma {:induction false} AcceptedArray(s: Bytes) returns (t: Text)
    requires s != [] && s[0] == '[' && ParseValue(s).Ok?
    ensures t.TArray? && Good(t) && s == Spell(t) + ParseValue(s).rest && ParseValue(s).value == Read(t)
    decreases |s|, 0
  {
    var inner := s[1..];
    if SkipSpace(inner)[0] == ']' {
      t := AcceptedBrackets(s);
    } else {
      ItemsSkipped(inner, []);
      var vs := AcceptedItems(inner, []);
      t := TArray([], vs);
      assert [] + ReadItems(vs) == ReadItems(vs);
      InBrackets(s, SpellItems(vs), ParseValue(s).rest);
    }
  }

  lemma InBrackets(s: Bytes, items: Bytes, rest: Bytes)
    requires s != [] && s[0] == '[' && s[1..] == items + "]" + rest
    ensures s == "[" + items + "]" + rest
  {
    assert s == "[" + s[1..];
  }

  lemma AcceptedBrackets(s: Bytes) returns (t: Text)
    requires s != [] && s[0] == '[' && SkipSpace(s[1..]) != [] && SkipSpace(s[1..])[0] == ']'
    ensures var rest := SkipSpace(s[1..])[1..];
      t.TArray? && Good(t) && s == Spell(t) + rest && ParseValue(s) == Ok(Read(t), rest)
  {
    var space := Skipped(s[1..]);
    t := TArray(space, []);
    assert SkipSpace(s[1..]) == "]" + SkipSpace(s[1..])[1..];
    InBrackets(s, space, SkipSpace(s[1..])[1..]);
  }

  /** An item up to what stands after it. */
  lemma {:induction false} AcceptedItem(s: Bytes) returns (i: Item, more: Bytes)
    requires ParseValue(SkipSpace(s)).Ok?
    ensures var r := ParseValue(SkipSpace(s));
      GoodItem(i) && r.value == Read(i.value) && more == SkipSpace(r.rest) && s == SpellItem(i) + more
    decreases |s|, 2
  {
    var r := ParseValue(SkipSpace(s));
    var before := Skipped(s);
    var t := AcceptedValue(SkipSpace(s));
    var after := Skipped(r.rest);
    i, more := Item(before, t, after), SkipSpace(r.rest);
    assert s == before + (Spell(t) + (after + more));
    assert before + (Spell(t) + (after + more)) == before + (Spell(t) + after) + more;
  }

  /** An item in front of others, or alone. */
  lemma ItemInFront(i: Item, others: seq<Item>, read: seq<Value>)
    requires GoodItem(i) && forall j :: 0 <= j < |others| ==> GoodItem(others[j])
    ensures var vs := [i] + others;
      && (forall j :: 0 <= j < |vs| ==> GoodItem(vs[j]))
      && read + [Read(i.value)] + ReadItems(others) == read + ReadItems(vs)
      && SpellItems(vs) == if others == [] then SpellItem(i) else SpellItem(i) + "," + SpellItems(others)
  {
    assert ([i] + others)[1..] == others;
  }

  lemma LastText(s: Bytes, first: Bytes, more: Bytes, end: Byte)
    requires s == first + more && more != [] && more[0] == end
    ensures s == first + [end] + more[1..]
  {
    assert more == [end] + more[1..];
  }

  lemma MoreText(s: Bytes, first: Bytes, more: Bytes, others: Bytes, end: Byte, rest: Bytes)
    requires s == first + more && more != [] && more[0] == ',' && more[1..] == others + [end] + rest
    ensures s == first + "," + others + [end] + rest
  {
    assert more == "," + more[1..];
  }

  lemma {:induction false} AcceptedItems(s: Bytes, read: seq<Value>) returns (vs: seq<Item>)
    requires ParseItems(s, read).Ok?
    ensures vs != [] && (forall i :: 0 <= i < |vs| ==> GoodItem(vs[i]))
    ensures var r := ParseItems(s, read); s == SpellItems(vs) + "]" + r.rest && r.value == Array(read + ReadItems(vs))
    decreases |s|, 3
  {
    var r := ParseItems(s, read);
    var i, more := AcceptedItem(s);
    var others := [];
    if more[0] == ']' {
      LastText(s, SpellItem(i), more, ']');
    } else {
      others := AcceptedItems(more[1..], read + [Read(i.value)]);
      MoreText(s, SpellItem(i), more, SpellItems(others), ']', r.rest);
    }
    vs := [i] + others;
    ItemInFront(i, others, read);
  }

  lemma {:induction false} AcceptedObject(s: Bytes) returns (t: Text)
    requires s != [] && s[0] == '{' && ParseValue(s).Ok?
    ensures t.TObject? && Good(t) && s == Spell(t) + ParseValue(s).rest && ParseValue(s).value == Read(t)
    decreases |s|, 0
  {
    var inner := s[1..];
    if SkipSpace(inner)[0] == '}' {
      t := AcceptedBraces(s);
    } else {
      MembersSkipped(inner, []);
      var es := AcceptedEntries(inner, []);
      t := TObject([], es);
      InBraces(s, SpellEntries(es), ParseValue(s).rest);
    }
  }

  lemma InBraces(s: Bytes, entries: Bytes, rest: Bytes)
    requires s != [] && s[0] == '{' && s[1..] == entries + "}" + rest
    ensures s == "{" + entries + "}" + rest
  {
    assert s == "{" + s[1..];
  }

  lemma AcceptedBraces(s: Bytes) returns (t: Text)
    requires s != [] && s[0] == '{' && SkipSpace(s[1..]) != [] && SkipSpace(s[1..])[0] == '}'
    ensures var rest := SkipSpace(s[1..])[1..];
      t.TObject? && Good(t) && s == Spell(t) + rest && ParseValue(s) == Ok(Read(t), rest)
  {
    var space := Skipped(s[1..]);
    t := TObject(space, []);
    assert SkipSpace(s[1..]) == "}" + SkipSpace(s[1..])[1..];
    InBraces(s, space, SkipSpace(s[1..])[1..]);
  }

  /** An entry up to what stands after it. */
  lemma {:induction false} AcceptedEntry(s: Bytes) returns (e: Entry, more: Bytes)
    requires ParseMember(s).Ok?
    ensures var r := ParseMember(s);
      && GoodEntry(e) && r.value == Member(SaidAll(e.name), Read(e.value)) && more == SkipSpace(r.rest)
      && s == SpellEntry(e) + more
    decreases |s|, 2
  {
    var before := Skipped(s);
    var name := AcceptedString(SkipSpace(s));
    var named := ParseString(SkipSpace(s)).rest;
    var afterName := Skipped(named);
    var colon := SkipSpace(named);
    var beforeValue := Skipped(colon[1..]);
    var t := AcceptedValue(SkipSpace(colon[1..]));
    var valued := ParseValue(SkipSpace(colon[1..])).rest;
    var after := Skipped(valued);
    e, more := Entry(before, name, afterName, beforeValue, t, after), SkipSpace(valued);
    EntryParts(s, e, named, colon, valued, more);
  }

  lemma EntryParts(s: Bytes, e: Entry, named: Bytes, colon: Bytes, valued: Bytes, more: Bytes)
    requires s == e.before + (SpellString(e.name) + named) && named == e.afterName + colon
    requires colon != [] && colon[0] == ':' && colon[1..] == e.beforeValue + (Spell(e.value) + valued)
    requires valued == e.after + more
    ensures s == SpellEntry(e) + more
  {
    assert colon == ":" + colon[1..];
    EntryText(e, more);
  }

  lemma EntryText(e: Entry, more: Bytes)
    ensures e.before + (SpellString(e.name)
        + (e.afterName + (":" + (e.beforeValue + (Spell(e.value) + (e.after + more)))))) == SpellEntry(e) + more
  {}

  lemma {:induction false} AcceptedEntries(s: Bytes, read: seq<Member>) returns (es: seq<Entry>)
    requires ParseMembers(s, read).Ok?
    ensures es != [] && (forall i :: 0 <= i < |es| ==> GoodEntry(es[i]))
    ensures var r := ParseMembers(s, read);
      s == SpellEntries(es) + "}" + r.rest && r.value == Object(AssignAll(read, ReadEntries(es)))
    decreases |s|, 3
  {
    var r := ParseMembers(s, read);
    var e, more := AcceptedEntry(s);
    var others := [];
    if more[0] == '}' {
      LastText(s, SpellEntry(e), more, '}');
    } else {
      others := AcceptedEntries(more[1..], Assign(read, SaidAll(e.name), Read(e.value)));
      MoreText(s, SpellEntry(e), more, SpellEntries(others), '}', r.rest);
    }
    es := [e] + others;
    EntryInFront(e, others, read);
  }

  /** `s` is the text `t` with white space before it and `rest` after it. */
  ghost predicate Spelled(s: Bytes, before: Bytes, t: Text, rest: Bytes) {
    White(before) && Good(t) && (t.TNumber? ==> Ends(rest)) && s == before + (Spell(t) + rest)
  }

  /** A text of which the parser reads a value starts, but for white space, with a text that says this value; and
      it throws on everything else. */
  lemma AcceptsExactly(s: Bytes)
    ensures ParseDocument(s).Ok? <==> exists before, t, rest :: Spelled(s, before, t, rest)
    ensures forall before, t, rest :: Spelled(s, before, t, rest) ==>
      && ParseDocument(s).Ok? && Means(t, ParseDocument(s).value) && ParseDocument(s).rest == SkipSpace(rest)
  {
    forall before, t, rest | Spelled(s, before, t, rest)
      ensures ParseDocument(s).Ok? && Means(t, ParseDocument(s).value) && ParseDocument(s).rest == SkipSpace(rest)
    {
      ReadsEveryText(before, t, rest);
    }
    if ParseDocument(s).Ok? {
      var before := Skipped(s);
      var t := AcceptedValue(SkipSpace(s));
      assert Spelled(s, before, t, ParseValue(SkipSpace(s)).rest);
    }
  }
}
