/** The printer and the parser as the C++ client runs them: one appends to a stream while it walks a
    value, the other advances an index over the text. Each does what the functions say. */
module JsonStreams {
  import opened WatermarkText
  import opened Json
  import opened JsonRoundTrips

  class Writer {
    var os: Bytes

    constructor ()
      ensures os == []
    {
      os := [];
    }

    method WriteByte(c: Byte)
      modifies this
      ensures os == old(os) + EscapeByte(c)
    {
      if c == '"' {
        os := os + "\\\"";
      } else if c == '\\' {
        os := os + "\\\\";
      } else if c == '\n' {
        os := os + "\\n";
      } else if c == '\r' {
        os := os + "\\r";
      } else if c == '\t' {
        os := os + "\\t";
      } else if c as int < 0x20 {
        os := os + "\\u00" + [HexDigit(c as int / 16), HexDigit(c as int % 16)];
      } else {
        os := os + [c];
      }
    }

    method WriteString(s: Bytes)
      modifies this
      ensures os == old(os) + PrintString(s)
    {
      os := os + "\"";
      assert s[0..] == s;
      for i := 0 to |s|
        invariant os + Escape(s[i..]) == old(os) + "\"" + Escape(s)
      {
        ghost var before := os;
        WriteByte(s[i]);
        EscapeStep(s, i, before, os);
      }
      EscapeEnd(s, os);
      os := os + "\"";
    }

    method Write(v: Value)
      modifies this
      ensures os == old(os) + Print(v)
      decreases v, 0
    {
      match v
      case Null => os := os + "null";
      case Bool(b) => os := os + if b then "true" else "false";
      case Number(text) => os := os + text;
      case String(bytes) => WriteString(bytes);
      case Array(items) =>
        os := os + "[";
        WriteItems(items);
        os := os + "]";
      case Object(members) =>
        os := os + "{";
        WriteMembers(members);
        os := os + "}";
    }

    method WriteItems(items: seq<Value>)
      modifies this
      ensures os == old(os) + PrintItems(items)
      decreases items, 1
    {
      assert items[0..] == items;
      for i := 0 to |items|
        invariant os + ItemsLeft(items, i) == old(os) + PrintItems(items)
      {
        ghost var before := os;
        if i > 0 {
          os := os + ",";
        }
        Write(items[i]);
        ItemsLeftStep(items, i, before, os);
      }
    }

    method WriteMembers(members: seq<Member>)
      modifies this
      ensures os == old(os) + PrintMembers(members)
      decreases members, 1
    {
      assert members[0..] == members;
      for i := 0 to |members|
        invariant os + MembersLeft(members, i) == old(os) + PrintMembers(members)
      {
        ghost var before := os;
        if i > 0 {
          os := os + ",";
        }
        WriteString(members[i].name);
        os := os + ":";
        Write(members[i].value);
        MembersLeftStep(members, i, before, os);
      }
    }
  }

  lemma EscapeStep(s: Bytes, i: nat, before: Bytes, after: Bytes)
    requires i < |s| && after == before + EscapeByte(s[i])
    ensures before + Escape(s[i..]) == after + Escape(s[i + 1..])
  {
    assert s[i..][1..] == s[i + 1..];
    Append(before, EscapeByte(s[i]), Escape(s[i + 1..]));
  }

  lemma Append(a: Bytes, b: Bytes, c: Bytes)
    ensures a + (b + c) == a + b + c
  {}

  lemma EscapeEnd(s: Bytes, os: Bytes)
    ensures os + Escape(s[|s|..]) == os
  {}

  /** What is still to be printed after `i` items. */
  function ItemsLeft(items: seq<Value>, i: nat): Bytes
    requires i <= |items|
  {
    if i == 0 then PrintItems(items) else if i == |items| then [] else "," + PrintItems(items[i..])
  }

  lemma ItemsLeftStep(items: seq<Value>, i: nat, before: Bytes, after: Bytes)
    requires i < |items| && after == before + (if i > 0 then "," else []) + Print(items[i])
    ensures before + ItemsLeft(items, i) == after + ItemsLeft(items, i + 1)
  {
    var rest, comma: Bytes := items[i..], if i > 0 then "," else [];
    assert rest[1..] == items[i + 1..] && (i == 0 ==> rest == items);
    ItemText(rest, items[i], ItemsLeft(items, i + 1));
    assert ItemsLeft(items, i) == comma + PrintItems(rest);
    JoinItem(before, comma, Print(items[i]), ItemsLeft(items, i + 1));
  }

  lemma ItemText(rest: seq<Value>, v: Value, left: Bytes)
    requires rest != [] && rest[0] == v && left == if |rest| == 1 then [] else "," + PrintItems(rest[1..])
    ensures PrintItems(rest) == Print(v) + left
  {}

  lemma JoinItem(before: Bytes, comma: Bytes, value: Bytes, left: Bytes)
    ensures before + (comma + (value + left)) == before + comma + value + left
  {}

  function MembersLeft(members: seq<Member>, i: nat): Bytes
    requires i <= |members|
  {
    if i == 0 then PrintMembers(members) else if i == |members| then [] else "," + PrintMembers(members[i..])
  }

  lemma MembersLeftStep(members: seq<Member>, i: nat, before: Bytes, after: Bytes)
    requires i < |members|
    requires var comma := if i > 0 then "," else [];
      after == before + comma + PrintString(members[i].name) + ":" + Print(members[i].value)
    ensures before + MembersLeft(members, i) == after + MembersLeft(members, i + 1)
  {
    var rest, comma: Bytes := members[i..], if i > 0 then "," else [];
    assert rest[1..] == members[i + 1..] && (i == 0 ==> rest == members);
    MemberText(rest, members[i], MembersLeft(members, i + 1));
    assert MembersLeft(members, i) == comma + PrintMembers(rest);
    Join(before, comma, PrintString(members[i].name), Print(members[i].value), MembersLeft(members, i + 1));
  }

  lemma MemberText(rest: seq<Member>, m: Member, left: Bytes)
    requires rest != [] && rest[0] == m && left == if |rest| == 1 then [] else "," + PrintMembers(rest[1..])
    ensures PrintMembers(rest) == PrintMember(m) + left
  {}

  lemma Join(before: Bytes, comma: Bytes, name: Bytes, value: Bytes, left: Bytes)
    ensures before + (comma + (name + ":" + value + left)) == before + comma + name + ":" + value + left
  {}

  /** v.dump(). */
  method Dump(v: Value) returns (text: Bytes)
    ensures text == Print(v)
  {
    var w := new Writer();
    w.Write(v);
    text := w.os;
  }

  // ----- The parser -----

  datatype Result<+T> = Done(value: T) | Thrown(error: Error)

  /** The parser at `i` of `s` has done what the function says of the text it started from. */
  ghost predicate Agrees<T>(r: Result<T>, s: Bytes, i: nat, spec: Parsed<T>) {
    match spec
    case Ok(v, rest) => r == Done(v) && i <= |s| && s[i..] == rest
    case Fail(e) => r == Thrown(e)
  }

  lemma ItemsStep(t: Bytes, arr: seq<Value>, v: Value, rest: Bytes)
    requires ParseValue(SkipSpace(t)) == Ok(v, rest)
    ensures var u := SkipSpace(rest);
      ParseItems(t, arr) ==
        if u != [] && u[0] == ',' then ParseItems(u[1..], arr + [v])
        else if u != [] && u[0] == ']' then Ok(Array(arr + [v]), u[1..])
        else Fail(Malformed)
  {}

  lemma ItemsFail(t: Bytes, arr: seq<Value>, e: Error)
    requires ParseValue(SkipSpace(t)) == Fail(e)
    ensures ParseItems(t, arr) == Fail(e)
  {}

  lemma MembersStep(t: Bytes, obj: seq<Member>, m: Member, rest: Bytes)
    requires ParseMember(t) == Ok(m, rest)
    ensures var u := SkipSpace(rest);
      ParseMembers(t, obj) ==
        if u != [] && u[0] == ',' then ParseMembers(u[1..], Assign(obj, m.name, m.value))
        else if u != [] && u[0] == '}' then Ok(Object(Assign(obj, m.name, m.value)), u[1..])
        else Fail(Malformed)
  {}

  lemma MembersFail(t: Bytes, obj: seq<Member>, e: Error)
    requires ParseMember(t) == Fail(e)
    ensures ParseMembers(t, obj) == Fail(e)
  {}

  lemma MemberStops(t: Bytes, name: Bytes, rest: Bytes)
    requires ParseString(SkipSpace(t)) == Ok(name, rest)
    requires SkipSpace(rest) == [] || SkipSpace(rest)[0] != ':'
    ensures ParseMember(t) == Fail(Malformed)
  {}

  lemma MemberReads(t: Bytes, name: Bytes, rest: Bytes, value: Bytes, v: Parsed<Value>)
    requires ParseString(SkipSpace(t)) == Ok(name, rest)
    requires SkipSpace(rest) != [] && SkipSpace(rest)[0] == ':' && SkipSpace(SkipSpace(rest)[1..]) == value
    requires ParseValue(value) == v
    ensures ParseMember(t) == Named(name, v)
  {}

  function Named(name: Bytes, v: Parsed<Value>): Parsed<Member> {
    if v.Ok? then Ok(Member(name, v.value), v.rest) else Fail(v.error)
  }

  class Parser {
    const s: Bytes
    var i: nat

    constructor (s: Bytes)
      ensures this.s == s && i == 0
    {
      this.s := s;
      i := 0;
    }

    method SkipWs()
      requires i <= |s|
      modifies this
      ensures old(i) <= i <= |s| && s[i..] == SkipSpace(s[old(i)..])
    {
      while i < |s| && IsSpace(s[i])
        invariant old(i) <= i <= |s| && SkipSpace(s[i..]) == SkipSpace(s[old(i)..])
      {
        assert s[i..][1..] == s[i + 1..];
        i := i + 1;
      }
    }

    method ParseNumberAt() returns (r: Result<Value>)
      requires i <= |s|
      modifies this
      ensures Agrees(r, s, i, ParseNumber(s[old(i)..]))
    {
      var start := i;
      ghost var t := s[i..];
      while i < |s| && NumberByte(s[i])
        invariant start <= i <= |s| && NumberLength(t) == i - start + NumberLength(s[i..])
      {
        assert s[i..][1..] == s[i + 1..];
        i := i + 1;
      }
      assert NumberLength(t) == i - start;
      if i == start {
        return Thrown(Malformed);
      }
      assert t[..i - start] == s[start..i] && t[i - start..] == s[i..];
      r := Done(Number(s[start..i]));
    }

    /** Whether the text goes on with `word` (std::string::compare of that many bytes). */
    method Compare(word: Bytes) returns (same: bool)
      requires i <= |s|
      ensures same <==> StartsWith(s[i..], word)
    {
      same := i + |word| <= |s| && s[i..i + |word|] == word;
      if same { assert s[i..][..|word|] == word; }
    }

    method ParseBoolAt() returns (r: Result<Value>)
      requires i <= |s|
      modifies this
      ensures Agrees(r, s, i, ParseBool(s[old(i)..]))
    {
      var isTrue := Compare("true");
      if isTrue {
        assert s[i..][4..] == s[i + 4..];
        i := i + 4;
        return Done(Bool(true));
      }
      var isFalse := Compare("false");
      if isFalse {
        assert s[i..][5..] == s[i + 5..];
        i := i + 5;
        return Done(Bool(false));
      }
      r := Thrown(Malformed);
    }

    method ParseNullAt() returns (r: Result<Value>)
      requires i <= |s|
      modifies this
      ensures Agrees(r, s, i, ParseNull(s[old(i)..]))
    {
      var isNull := Compare("null");
      if isNull {
        assert s[i..][4..] == s[i + 4..];
        i := i + 4;
        return Done(Null);
      }
      r := Thrown(Malformed);
    }

    method ParseStringAt() returns (r: Result<Bytes>)
      requires i <= |s|
      modifies this
      ensures Agrees(r, s, i, ParseString(s[old(i)..]))
    {
      if i >= |s| || s[i] != '"' {
        return Thrown(Malformed);
      }
      ghost var spec := ParseString(s[i..]);
      assert s[i..][1..] == s[i + 1..];
      i := i + 1;
      var out: Bytes := [];
      while i < |s|
        invariant i <= |s| && ParseStringFrom(s[i..], out) == spec
        decreases |s| - i
      {
        var c := s[i];
        assert s[i..][1..] == s[i + 1..];
        if c == '"' {
          i := i + 1;
          return Done(out);
        }
        if c == '\\' {
          if i + 1 >= |s| {
            return Thrown(Malformed);
          }
          var e := s[i + 1];
          assert s[i..][1] == e && s[i..][2..] == s[i + 2..];
          if SimpleEscape(e).Some? {
            out := out + [SimpleEscape(e).value];
            i := i + 2;
          } else if e != 'u' || i + 6 > |s| {
            return Thrown(Malformed);
          } else {
            assert s[i..][2..6] == s[i + 2..i + 6] && s[i..][6..] == s[i + 6..];
            var code := Stoul(s[i + 2..i + 6]);
            if code.None? {
              return Thrown(NoConversion);
            }
            out := out + CodeBytes(code.value);
            i := i + 6;
          }
        } else {
          out := out + [c];
          i := i + 1;
        }
      }
      r := Thrown(Malformed);
    }

    method ParseValueAt() returns (r: Result<Value>)
      requires i <= |s|
      modifies this
      ensures Agrees(r, s, i, ParseValue(s[old(i)..]))
      decreases |s| - i, 0
    {
      if i >= |s| {
        return Thrown(Malformed);
      }
      var c := s[i];
      if c == '{' {
        r := ParseObjectAt();
      } else if c == '[' {
        r := ParseArrayAt();
      } else if c == '"' {
        var text := ParseStringAt();
        r := if text.Done? then Done(String(text.value)) else Thrown(text.error);
      } else if c == 't' || c == 'f' {
        r := ParseBoolAt();
      } else if c == 'n' {
        r := ParseNullAt();
      } else {
        r := ParseNumberAt();
      }
    }

    /** A comma, and more follows; or the closing byte, and nothing does. */
    method Separator(close: Byte) returns (more: Result<bool>)
      requires i <= |s|
      modifies this
      ensures i <= |s|
      ensures var u := SkipSpace(s[old(i)..]);
        if u != [] && u[0] == ',' then more == Done(true) && old(i) < i && s[i..] == u[1..]
        else if u != [] && u[0] == close then more == Done(false) && s[i..] == u[1..]
        else more == Thrown(Malformed)
    {
      SkipWs();
      if i >= |s| {
        return Thrown(Malformed);
      }
      assert s[i..][1..] == s[i + 1..];
      var c := s[i];
      if c != ',' && c != close {
        return Thrown(Malformed);
      }
      i := i + 1;
      more := Done(c == ',');
    }

    method ParseArrayAt() returns (r: Result<Value>)
      requires i < |s|
      modifies this
      ensures Agrees(r, s, i, ParseArray(SkipSpace(s[old(i)..][1..])))
      decreases |s| - i - 1, 4
    {
      assert s[i..][1..] == s[i + 1..];
      i := i + 1;
      SkipWs();
      if i >= |s| {
        return Thrown(Malformed);
      }
      if s[i] == ']' {
        assert s[i..][1..] == s[i + 1..];
        i := i + 1;
        return Done(Array([]));
      }
      r := ParseItemsAt();
    }

    /** The loop over the items of an array. */
    method ParseItemsAt() returns (r: Result<Value>)
      requires i <= |s|
      modifies this
      ensures Agrees(r, s, i, ParseItems(s[old(i)..], []))
      decreases |s| - i, 3
    {
      ghost var spec := ParseItems(s[i..], []);
      var arr: seq<Value> := [];
      while true
        invariant old(i) <= i <= |s| && ParseItems(s[i..], arr) == spec
        decreases |s| - i
      {
        ghost var t := s[i..];
        SkipWs();
        var v := ParseValueAt();
        if v.Thrown? {
          ItemsFail(t, arr, v.error);
          return Thrown(v.error);
        }
        ItemsStep(t, arr, v.value, s[i..]);
        arr := arr + [v.value];
        var more := Separator(']');
        if more.Thrown? {
          return Thrown(more.error);
        }
        if !more.value {
          return Done(Array(arr));
        }
      }
    }

    method ParseObjectAt() returns (r: Result<Value>)
      requires i < |s|
      modifies this
      ensures Agrees(r, s, i, ParseObject(SkipSpace(s[old(i)..][1..])))
      decreases |s| - i - 1, 4
    {
      assert s[i..][1..] == s[i + 1..];
      i := i + 1;
      SkipWs();
      if i >= |s| {
        return Thrown(Malformed);
      }
      if s[i] == '}' {
        assert s[i..][1..] == s[i + 1..];
        i := i + 1;
        return Done(Object([]));
      }
      r := ParseMembersAt();
    }

    /** The loop over the entries of an object. */
    method ParseMembersAt() returns (r: Result<Value>)
      requires i <= |s|
      modifies this
      ensures Agrees(r, s, i, ParseMembers(s[old(i)..], []))
      decreases |s| - i, 3
    {
      ghost var spec := ParseMembers(s[i..], []);
      var obj: seq<Member> := [];
      while true
        invariant old(i) <= i <= |s| && ParseMembers(s[i..], obj) == spec
        decreases |s| - i
      {
        ghost var t := s[i..];
        var m := ParseMemberAt();
        if m.Thrown? {
          MembersFail(t, obj, m.error);
          return Thrown(m.error);
        }
        MembersStep(t, obj, m.value, s[i..]);
        obj := Assign(obj, m.value.name, m.value.value);
        var more := Separator('}');
        if more.Thrown? {
          return Thrown(more.error);
        }
        if !more.value {
          return Done(Object(obj));
        }
      }
    }

    /** A name, a colon and a value. */
    method ParseMemberAt() returns (r: Result<Member>)
      requires i <= |s|
      modifies this
      ensures Agrees(r, s, i, ParseMember(s[old(i)..]))
      decreases |s| - i, 2
    {
      ghost var t := s[i..];
      SkipWs();
      var name := ParseStringAt();
      if name.Thrown? {
        return Thrown(name.error);
      }
      ghost var rest := s[i..];
      SkipWs();
      if i >= |s| || s[i] != ':' {
        MemberStops(t, name.value, rest);
        return Thrown(Malformed);
      }
      assert s[i..][1..] == s[i + 1..];
      i := i + 1;
      SkipWs();
      MemberReads(t, name.value, rest, s[i..], ParseValue(s[i..]));
      r := ParseNamed(name.value);
    }

    /** The value that goes with a name. */
    method ParseNamed(name: Bytes) returns (r: Result<Member>)
      requires i <= |s|
      modifies this
      ensures Agrees(r, s, i, Named(name, ParseValue(s[old(i)..])))
      decreases |s| - i, 1
    {
      var v := ParseValueAt();
      r := if v.Done? then Done(Member(name, v.value)) else Thrown(v.error);
    }

    method ParseAll() returns (r: Result<Value>)
      requires i == 0
      modifies this
      ensures Agrees(r, s, i, ParseDocument(s))
    {
      assert s[0..] == s;
      SkipWs();
      r := ParseValueAt();
      if r.Done? {
        SkipWs();
      }
    }
  }

  /** What one client prints, another reads back. */
  method PrintAndParse(v: Value) returns (r: Result<Value>)
    requires WellFormed(v)
    ensures r == Done(v)
  {
    var text := Dump(v);
    var parser := new Parser(text);
    RoundTrip(v);
    r := parser.ParseAll();
  }
}
