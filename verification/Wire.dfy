/** From the C++ client to the broker: every frame is one line of text, and however the lines are cut into
    chunks on the way, each arrives and is read as the value that was sent. */
module Wire {
  import opened WatermarkText
  import opened Json
  import opened JsonRoundTrips
  import opened Lines

  // ----- One frame, one line -----

  /** No byte below the space, so no line feed. */
  ghost predicate Printable(s: Bytes) {
    forall c :: c in s ==> c as int >= 0x20
  }

  lemma {:induction false} EscapePrintable(s: Bytes)
    ensures Printable(Escape(s))
  {
    if s != [] {
      assert Printable(EscapeByte(s[0]));
      EscapePrintable(s[1..]);
    }
  }

  lemma StringPrintable(s: Bytes)
    ensures Printable(PrintString(s))
  {
    EscapePrintable(s);
  }

  /** Whatever bytes its strings have, a printed value has no control byte. */
  lemma {:induction false} PrintPrintable(v: Value)
    requires WellFormed(v)
    ensures Printable(Print(v)) && Print(v) != []
    decreases v, 1
  {
    match v {
      case Number(text) =>
      case String(bytes) => StringPrintable(bytes);
      case Array(items) => ItemsPrintable(items);
      case Object(members) => MembersPrintable(members);
      case _ =>
    }
  }

  lemma {:induction false} ItemsPrintable(vs: seq<Value>)
    requires forall i :: 0 <= i < |vs| ==> WellFormed(vs[i])
    ensures Printable(PrintItems(vs))
    decreases vs, 0
  {
    if vs != [] {
      PrintPrintable(vs[0]);
      ItemsPrintable(vs[1..]);
    }
  }

  lemma {:induction false} MembersPrintable(ms: seq<Member>)
    requires forall i :: 0 <= i < |ms| ==> WellFormed(ms[i].value)
    ensures Printable(PrintMembers(ms))
    decreases ms, 0
  {
    if ms != [] {
      StringPrintable(ms[0].name);
      PrintPrintable(ms[0].value);
      MembersPrintable(ms[1..]);
    }
  }

  // ----- Many frames, many lines -----

  /** What is written for a list of frames: each with a line feed after it. */
  function Sent(vs: seq<Value>): Bytes {
    if vs == [] then [] else Print(vs[0]) + "\n" + Sent(vs[1..])
  }

  function Prints(vs: seq<Value>): seq<Bytes> {
    if vs == [] then [] else [Print(vs[0])] + Prints(vs[1..])
  }

  lemma FirstLine(line: Bytes, rest: Bytes)
    requires Printable(line)
    ensures Find(line + "\n" + rest, "\n") == |line|
  {
    var s := line + "\n" + rest;
    assert s[|line|..] == "\n" + rest;
    forall j | 0 <= j < |line| ensures !("\n" <= s[j..]) {
      assert s[j..][0] == line[j] && line[j] in line;
    }
    FirstIs(s, "\n", |line|);
  }

  /** The lines of the text are the printed frames. */
  lemma {:induction false} LinesAreFrames(vs: seq<Value>)
    requires forall v :: v in vs ==> WellFormed(v)
    ensures NonEmpty(Split(Sent(vs), "\n")) == Prints(vs)
    decreases |vs|
  {
    if vs == [] {
      assert Split([], "\n") == [""] && [""][1..] == [];
    } else {
      var line, rest := Print(vs[0]), Sent(vs[1..]);
      PrintPrintable(vs[0]);
      FirstLine(line, rest);
      SplitAt(Sent(vs), "\n", |line|, line, rest);
      assert ([line] + Split(rest, "\n"))[1..] == Split(rest, "\n");
      LinesAreFrames(vs[1..]);
    }
  }

  lemma {:induction false} PrintsRead(vs: seq<Value>)
    requires forall v :: v in vs ==> WellFormed(v)
    ensures |Prints(vs)| == |vs| && forall i :: 0 <= i < |vs| ==> ParseDocument(Prints(vs)[i]) == Ok(vs[i], [])
    decreases |vs|
  {
    if vs != [] {
      RoundTrip(vs[0]);
      PrintsRead(vs[1..]);
    }
  }

  /** The frames a client wrote, received in any chunks: as many lines, each read as the frame it was. */
  method Receive(vs: seq<Value>, chunks: seq<Bytes>, delay: bool, delayEvery: nat, count: nat)
    returns (lines: seq<string>)
    requires (forall v :: v in vs ==> WellFormed(v)) && Concat(chunks) == Sent(vs) && delayEvery > 0
    ensures |lines| == |vs| && lines == Prints(vs)
    ensures forall i :: 0 <= i < |vs| ==> ParseDocument(Prints(vs)[i]) == Ok(vs[i], [])
  {
    LinesAreFrames(vs);
    PrintsRead(vs);
    assert Concat(chunks) + "" == Sent(vs);
    lines := ReadStream(chunks, "", "\n", delay, delayEvery, count);
  }
}
