/** The log writer: arbitrary chunks of bytes in, complete lines out. */
module Framing {

  newtype Byte = b: int | 0 <= b < 256
  type Bytes = seq<Byte>

  const NL: Byte := 10

  predicate NoBreak(b: Bytes) {
    forall k :: 0 <= k < |b| ==> b[k] != NL
  }

  // The position of the first newline, or the length.
  function FirstBreak(b: Bytes): (i: nat)
    ensures i <= |b|
    ensures forall k :: 0 <= k < i ==> b[k] != NL
    ensures i < |b| ==> b[i] == NL
  {
    if b == [] || b[0] == NL then 0 else 1 + FirstBreak(b[1..])
  }

  // The newline-terminated lines of b, and what follows the last newline.
  function Lines(b: Bytes): seq<Bytes>
    decreases |b|
  {
    var i := FirstBreak(b);
    if i == |b| then [] else [b[..i]] + Lines(b[i + 1..])
  }

  function Tail(b: Bytes): Bytes
    decreases |b|
  {
    var i := FirstBreak(b);
    if i == |b| then b else Tail(b[i + 1..])
  }

  function Join(lines: seq<Bytes>, tail: Bytes): Bytes {
    if lines == [] then tail else lines[0] + [NL] + Join(lines[1..], tail)
  }

  predicate AllNoBreak(lines: seq<Bytes>) {
    forall k :: 0 <= k < |lines| ==> NoBreak(lines[k])
  }

  // ---------------------------------------------------------------- framing loses nothing and is unambiguous

  lemma CutAt(b: Bytes, i: nat)
    requires i < |b| && b[i] == NL
    ensures b == b[..i] + [NL] + b[i + 1..]
  {
  }

  lemma LinesStep(b: Bytes, i: nat)
    requires i == FirstBreak(b) < |b|
    ensures Lines(b) == [b[..i]] + Lines(b[i + 1..])
  {
  }

  lemma TailStep(b: Bytes, i: nat)
    requires i == FirstBreak(b) < |b|
    ensures Tail(b) == Tail(b[i + 1..])
  {
  }

  lemma Regroup(a: seq<Bytes>, line: Bytes, b: seq<Bytes>)
    ensures a + [line] + b == a + ([line] + b)
  {
  }

  lemma {:induction false} JoinOfLines(b: Bytes)
    ensures Join(Lines(b), Tail(b)) == b
    ensures AllNoBreak(Lines(b)) && NoBreak(Tail(b))
    decreases |b|
  {
    var i := FirstBreak(b);
    if i < |b| {
      var rest := b[i + 1..];
      JoinOfLines(rest);
      CutAt(b, i);
      LinesStep(b, i);
      TailStep(b, i);
      assert ([b[..i]] + Lines(rest))[1..] == Lines(rest);
      assert Join(Lines(b), Tail(b)) == b[..i] + [NL] + Join(Lines(rest), Tail(rest));
    }
  }

  lemma FirstBreakIs(line: Bytes, rest: Bytes)
    requires NoBreak(line)
    ensures FirstBreak(line + [NL] + rest) == |line|
  {
    var b := line + [NL] + rest;
    assert b[|line|] == NL;
    assert forall k :: 0 <= k < |line| ==> b[k] == line[k];
  }

  lemma {:induction false} LinesOfJoin(lines: seq<Bytes>, tail: Bytes)
    requires AllNoBreak(lines) && NoBreak(tail)
    ensures Lines(Join(lines, tail)) == lines && Tail(Join(lines, tail)) == tail
  {
    if lines == [] {
      var i := FirstBreak(tail);
      assert i == |tail|;
    } else {
      var rest := Join(lines[1..], tail);
      FirstBreakIs(lines[0], rest);
      LinesOfJoin(lines[1..], tail);
      var b := lines[0] + [NL] + rest;
      assert b[..|lines[0]|] == lines[0] && b[|lines[0]| + 1..] == rest;
    }
  }

  lemma {:induction false} JoinJoin(a: seq<Bytes>, b: seq<Bytes>, tail: Bytes)
    ensures Join(a, Join(b, tail)) == Join(a + b, tail)
  {
    if a == [] {
      assert a + b == b;
    } else {
      JoinJoin(a[1..], b, tail);
      assert (a + b)[1..] == a[1..] + b;
    }
  }

  lemma {:induction false} JoinThen(lines: seq<Bytes>, tail: Bytes, more: Bytes)
    ensures Join(lines, tail) + more == Join(lines, tail + more)
  {
    if lines != [] {
      JoinThen(lines[1..], tail, more);
      assert lines[0] + [NL] + Join(lines[1..], tail) + more == lines[0] + [NL] + (Join(lines[1..], tail) + more);
    }
  }

  // Framing more bytes later gives the same lines as framing everything at once.
  lemma LinesOfConcat(a: Bytes, b: Bytes)
    ensures Lines(a + b) == Lines(a) + Lines(Tail(a) + b)
    ensures Tail(a + b) == Tail(Tail(a) + b)
  {
    JoinOfLines(a);
    var c := Tail(a) + b;
    JoinOfLines(c);
    JoinThen(Lines(a), Tail(a), b);
    JoinJoin(Lines(a), Lines(c), Tail(c));
    LinesOfJoin(Lines(a) + Lines(c), Tail(c));
  }

  // ---------------------------------------------------------------- any sequence of writes

  function Concat(chunks: seq<Bytes>): Bytes {
    if chunks == [] then [] else Concat(chunks[..|chunks| - 1]) + chunks[|chunks| - 1]
  }

  datatype Writer = Writer(published: seq<Bytes>, buf: Bytes)

  function AfterWrite(w: Writer, chunk: Bytes): Writer {
    Writer(w.published + Lines(w.buf + chunk), Tail(w.buf + chunk))
  }

  function AfterWrites(chunks: seq<Bytes>): Writer {
    if chunks == [] then Writer([], [])
    else AfterWrite(AfterWrites(chunks[..|chunks| - 1]), chunks[|chunks| - 1])
  }

  lemma {:induction false} WritesFrameTheStream(chunks: seq<Bytes>)
    ensures AfterWrites(chunks).published == Lines(Concat(chunks))
    ensures AfterWrites(chunks).buf == Tail(Concat(chunks))
  {
    if chunks == [] {
      assert Lines([]) == [] && Tail([]) == [];
    } else {
      var init := chunks[..|chunks| - 1];
      WritesFrameTheStream(init);
      LinesOfConcat(Concat(init), chunks[|chunks| - 1]);
    }
  }

  // How the bytes were cut into chunks leaves no trace, and no byte is lost or made up.
  lemma ChunkingDoesNotMatter(chunks: seq<Bytes>, others: seq<Bytes>)
    requires Concat(chunks) == Concat(others)
    ensures AfterWrites(chunks) == AfterWrites(others)
    ensures Join(AfterWrites(chunks).published, AfterWrites(chunks).buf) == Concat(chunks)
    ensures forall line :: line in AfterWrites(chunks).published ==> (10 as Byte) !in line
    ensures (10 as Byte) !in AfterWrites(chunks).buf
  {
    WritesFrameTheStream(chunks);
    WritesFrameTheStream(others);
    JoinOfLines(Concat(chunks));
  }

  // ---------------------------------------------------------------- the class

  class BroadcastWriter {
    var file: Bytes
    var buf: Bytes
    var published: seq<Bytes>  // what the broadcaster was given, in order

    ghost predicate Framed()
      reads this
    {
      published == Lines(file) && buf == Tail(file)
    }

    ghost function State(): Writer
      reads this
    {
      Writer(published, buf)
    }

    constructor ()
      ensures Framed() && file == [] && State() == AfterWrites([])
    {
      file, buf, published := [], [], [];
    }

    // The scan for the next newline; -1 when there is none.
    method IndexOfBreak(b: Bytes) returns (idx: int)
      ensures idx == if FirstBreak(b) == |b| then -1 else FirstBreak(b)
    {
      idx := -1;
      var i := 0;
      while i < |b|
        invariant 0 <= i <= |b|
        invariant forall k :: 0 <= k < i ==> b[k] != NL
      {
        if b[i] == NL {
          return i;
        }
        i := i + 1;
      }
    }

    // The loop of Write: publish every complete line of the buffer, keep the rest.
    method PublishLines()
      modifies this
      ensures file == old(file)
      ensures published == old(published) + Lines(old(buf)) && buf == Tail(old(buf))
    {
      while true
        invariant published + Lines(buf) == old(published) + Lines(old(buf))
        invariant Tail(buf) == Tail(old(buf))
        invariant file == old(file)
        decreases |buf|
      {
        var idx := IndexOfBreak(buf);
        if idx < 0 {
          break;
        }
        var line, rest := buf[..idx], buf[idx + 1..];
        LinesStep(buf, idx);
        TailStep(buf, idx);
        Regroup(published, line, Lines(rest));
        buf := rest;
        published := published + [line];
      }
    }

    // How the write to the file ends is up to the file: n bytes reach it, and all of p when it
    // reports no error. After an error nothing is buffered or published.
    method Write(p: Bytes, n: nat, err: bool)
      requires n <= |p| && (!err ==> n == |p|)
      modifies this
      ensures file == old(file) + p[..n]
      ensures err ==> State() == old(State())
      ensures !err ==> State() == AfterWrite(old(State()), p)
      ensures !err && old(Framed()) ==> Framed()
    {
      file := file + p[..n];
      if err {
        return;
      }
      assert p[..n] == p;
      buf := buf + p[..n];
      PublishLines();
      if old(Framed()) {
        LinesOfConcat(old(file), p);
      }
    }
  }
}
