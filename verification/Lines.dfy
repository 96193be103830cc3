/** The line splitter of the stream parser: however a text is cut into chunks, and however often the
    work is put off, the lines handled are the non-empty pieces of the whole text. */
module Lines {

  /** Where `d` first occurs in `s`, if it does. */
  function Find(s: string, d: string): (i: nat)
    requires d != ""
    ensures i <= |s|
  {
    if s == "" || d <= s then 0 else Find(s[1..], d) + 1
  }

  ghost predicate First(s: string, d: string, i: nat) {
    && i <= |s| && (i < |s| ==> d <= s[i..])
    && forall j :: 0 <= j < i ==> !(d <= s[j..])
  }

  lemma {:induction false} FindFirst(s: string, d: string)
    requires d != ""
    ensures First(s, d, Find(s, d))
  {
    if s != "" && !(d <= s) {
      FindFirst(s[1..], d);
      var i := Find(s[1..], d);
      assert s[1..][i..] == s[i + 1..];
      forall j | 0 < j < i + 1 ensures !(d <= s[j..]) { assert s[1..][j - 1..] == s[j..]; }
    }
  }

  lemma FirstIs(s: string, d: string, i: nat)
    requires d != "" && i < |s| && First(s, d, i)
    ensures Find(s, d) == i
  {
    FindFirst(s, d);
  }

  /** String.prototype.split. */
  function Split(s: string, d: string): (lines: seq<string>)
    requires d != ""
    ensures lines != []
    decreases |s|
  {
    var i := Find(s, d);
    if i == |s| then [s]
    else
      FoundInside(s, d);
      [s[..i]] + Split(s[i + |d|..], d)
  }

  function Last(lines: seq<string>): string
    requires lines != []
  { lines[|lines| - 1] }

  function Init(lines: seq<string>): seq<string>
    requires lines != []
  { lines[..|lines| - 1] }

  function NonEmpty(lines: seq<string>): seq<string> {
    if lines == [] then [] else (if lines[0] == "" then [] else [lines[0]]) + NonEmpty(lines[1..])
  }

  lemma {:induction false} NonEmptyAppend(a: seq<string>, b: seq<string>)
    ensures NonEmpty(a + b) == NonEmpty(a) + NonEmpty(b)
  {
    if a == [] {
      assert a + b == b;
    } else {
      assert (a + b)[1..] == a[1..] + b;
      NonEmptyAppend(a[1..], b);
    }
  }

  /** Handling line `i` leaves the lines from there on to handle. */
  lemma HandleNext(handled: seq<string>, lines: seq<string>, i: nat)
    requires i < |lines|
    ensures var next := if lines[i] == "" then handled else handled + [lines[i]];
      handled + NonEmpty(lines[i..]) == next + NonEmpty(lines[i + 1..])
  {
    assert lines[i..][0] == lines[i] && lines[i..][1..] == lines[i + 1..];
  }

  lemma PrefixStays(s: string, more: string, d: string, k: nat)
    requires k + |d| <= |s|
    ensures d <= s[k..] <==> d <= (s + more)[k..]
  {
    assert (s + more)[k..] == s[k..] + more;
  }

  /** A first occurrence stays the first, whatever comes after. */
  lemma FindStays(s: string, more: string, d: string)
    requires d != "" && Find(s, d) < |s|
    ensures Find(s + more, d) == Find(s, d) && Find(s, d) + |d| <= |s|
  {
    var i := Find(s, d);
    FindFirst(s, d);
    PrefixStays(s, more, d, i);
    forall j | 0 <= j < i ensures !(d <= (s + more)[j..]) { PrefixStays(s, more, d, j); }
    FirstIs(s + more, d, i);
  }

  lemma FoundInside(s: string, d: string)
    requires d != "" && Find(s, d) < |s|
    ensures Find(s, d) + |d| <= |s|
  {
    FindFirst(s, d);
  }

  lemma SplitAt(s: string, d: string, i: nat, head: string, tail: string)
    requires d != "" && i == Find(s, d) < |s| && i + |d| <= |s| && s[..i] == head && s[i + |d|..] == tail
    ensures Split(s, d) == [head] + Split(tail, d)
  {}

  lemma InitLastCons(x: string, rest: seq<string>)
    requires rest != []
    ensures Init([x] + rest) == [x] + Init(rest) && Last([x] + rest) == Last(rest)
  {}

  /** All pieces but the last are settled; more text goes on from the last. */
  lemma {:induction false} SplitGoesOn(s: string, more: string, d: string)
    requires d != ""
    ensures Split(s + more, d) == Init(Split(s, d)) + Split(Last(Split(s, d)) + more, d)
    decreases |s|
  {
    var i := Find(s, d);
    if i == |s| {
      assert Split(s, d) == [s] && Init([s]) == [];
    } else {
      FindStays(s, more, d);
      SplitGoesOn(s[i + |d|..], more, d);
      SplitBoth(s, more, d, i);
      GoesOnFrom(s[..i], Split(s[i + |d|..], d), more, d, Split(s, d), Split(s + more, d));
    }
  }

  lemma SplitBoth(s: string, more: string, d: string, i: nat)
    requires d != "" && i == Find(s, d) == Find(s + more, d) && i < |s| && i + |d| <= |s|
    ensures Split(s, d) == [s[..i]] + Split(s[i + |d|..], d)
    ensures Split(s + more, d) == [s[..i]] + Split(s[i + |d|..] + more, d)
  {
    TextAround(s, more, i, |d|);
    SplitAt(s, d, i, s[..i], s[i + |d|..]);
    SplitAt(s + more, d, i, s[..i], s[i + |d|..] + more);
  }

  lemma GoesOnFrom(x: string, rest: seq<string>, more: string, d: string, lines: seq<string>, all: seq<string>)
    requires d != "" && rest != [] && lines == [x] + rest && all == [x] + (Init(rest) + Split(Last(rest) + more, d))
    ensures all == Init(lines) + Split(Last(lines) + more, d)
  {
    InitLastCons(x, rest);
    assert [x] + (Init(rest) + Split(Last(rest) + more, d)) == [x] + Init(rest) + Split(Last(rest) + more, d);
  }

  lemma TextAround(s: string, more: string, i: nat, n: nat)
    requires i + n <= |s|
    ensures (s + more)[..i] == s[..i] && (s + more)[i + n..] == s[i + n..] + more
  {}

  lemma InitGoesOn(seen: string, chunk: string, pieces: seq<string>, d: string)
    requires d != "" && pieces == Split(Last(Split(seen, d)) + chunk, d)
    ensures NonEmpty(Init(Split(seen + chunk, d))) == NonEmpty(Init(Split(seen, d))) + NonEmpty(Init(pieces))
    ensures Last(Split(seen + chunk, d)) == Last(pieces)
  {
    SplitGoesOn(seen, chunk, d);
    NonEmptyAppend(Init(Split(seen, d)), Init(pieces));
    assert Init(Split(seen + chunk, d)) == Init(Split(seen, d)) + Init(pieces);
  }

  /** What the end of the stream leaves to handle. */
  lemma FlushGoesOn(seen: string, tail: string, d: string)
    requires d != ""
    ensures var last := Last(Split(seen, d)) + tail;
      && NonEmpty(Split(seen + tail, d)) == NonEmpty(Init(Split(seen, d))) + NonEmpty(Split(last, d))
      && (last == "" ==> NonEmpty(Split(last, d)) == [])
  {
    var last := Last(Split(seen, d)) + tail;
    SplitGoesOn(seen, tail, d);
    NonEmptyAppend(Init(Split(seen, d)), Split(last, d));
    if last == "" { assert Split(last, d) == [""] && [""][1..] == []; }
  }

  class LineParser {
    const delimiter: string
    const delay: bool
    const delayEvery: nat
    var lastLineData: string
    var count: nat
    /** The lines given to handleJSON, and the work put off to a later turn. */
    var handled: seq<string>
    var lines: seq<string>
    var index: nat
    /** History: the text received. */
    ghost var seen: string

    ghost predicate Valid()
      reads this
    {
      && delimiter != "" && delayEvery > 0 && index == |lines|
      && handled == NonEmpty(Init(Split(seen, delimiter)))
      && lastLineData == Last(Split(seen, delimiter))
    }

    constructor (delimiter: string, delay: bool, delayEvery: nat, count: nat)
      requires delimiter != "" && delayEvery > 0
      ensures Valid() && seen == "" && handled == []
      ensures this.delimiter == delimiter
    {
      this.delimiter, this.delay, this.delayEvery, this.count := delimiter, delay, delayEvery, count;
      lastLineData, handled, lines, index, seen := "", [], [], 0, "";
    }

    /** processLines, up to its end or to where it puts the rest off with setImmediate. */
    method ProcessSome() returns (done: bool)
      requires delayEvery > 0 && index <= |lines|
      modifies `index, `count, `handled
      ensures index <= |lines|
      ensures handled + NonEmpty(lines[index..]) == old(handled) + NonEmpty(old(lines[index..]))
      ensures if done then index == |lines| else index > old(index)
    {
      ghost var all := handled + NonEmpty(lines[index..]);
      while index < |lines|
        invariant old(index) <= index <= |lines|
        invariant handled + NonEmpty(lines[index..]) == all
      {
        var l := lines[index];
        HandleNext(handled, lines, index);
        index := index + 1;
        if l == "" {
          continue;
        }
        handled := handled + [l];
        if delay {
          var due := count % delayEvery == 0;
          count := count + 1;
          if due {
            count := 1;
            return false;
          }
        }
      }
      done := true;
    }

    /** processLines and all the turns it takes. */
    method ProcessLines(work: seq<string>)
      requires delayEvery > 0
      modifies `index, `count, `handled, `lines
      ensures handled == old(handled) + NonEmpty(work) && index == |lines|
    {
      lines, index := work, 0;
      assert lines[0..] == work;
      var done := ProcessSome();
      while !done
        invariant lines == work && index <= |lines| && (done ==> index == |lines|)
        invariant handled + NonEmpty(lines[index..]) == old(handled) + NonEmpty(work)
        decreases |lines| - index, !done
      {
        done := ProcessSome();
      }
      assert NonEmpty(lines[index..]) == [];
    }

    method Transform(chunk: string)
      requires Valid()
      modifies this
      ensures Valid() && seen == old(seen) + chunk
    {
      var pieces := Split(lastLineData + chunk, delimiter);
      InitGoesOn(seen, chunk, pieces, delimiter);
      seen := seen + chunk;
      lastLineData := Last(pieces);
      ProcessLines(Init(pieces));
    }

    /** The end of the stream; `tail` is what the decoder still held. */
    method Flush(tail: string)
      requires Valid()
      modifies this
      ensures handled == NonEmpty(Split(old(seen) + tail, delimiter)) && lastLineData == ""
    {
      FlushGoesOn(seen, tail, delimiter);
      lastLineData := lastLineData + tail;
      if lastLineData == "" {
        return;
      }
      var pieces := Split(lastLineData, delimiter);
      lastLineData := "";
      ProcessLines(pieces);
    }
  }

  function Concat(chunks: seq<string>): string {
    if chunks == [] then "" else Concat(chunks[..|chunks| - 1]) + chunks[|chunks| - 1]
  }

  /** A whole stream: chunk after chunk, then the end. What is handled depends on the text alone,
      not on the cuts, nor on how often the work is put off. */
  method ReadStream(chunks: seq<string>, tail: string, delimiter: string, delay: bool, delayEvery: nat, count: nat)
    returns (handled: seq<string>)
    requires delimiter != "" && delayEvery > 0
    ensures handled == NonEmpty(Split(Concat(chunks) + tail, delimiter))
  {
    var parser := new LineParser(delimiter, delay, delayEvery, count);
    assert chunks[..0] == [];
    for i := 0 to |chunks|
      invariant parser.Valid() && parser.delimiter == delimiter && parser.seen == Concat(chunks[..i])
    {
      assert chunks[..i + 1][..i] == chunks[..i];
      parser.Transform(chunks[i]);
    }
    assert chunks[..|chunks|] == chunks;
    parser.Flush(tail);
    handled := parser.handled;
  }
}
