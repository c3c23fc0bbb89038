/** A job's log seen by one streaming client: the writer appends to the file and then publishes
    the completed lines one by one; the client subscribes, replays the file as it then is, and
    goes on with the channel. All interleavings of the two. */
module LogStreaming {
  import opened Framing
  import opened Broadcasting

  const CR: Byte := 13
  // The scanner's buffer holds this many bytes; a line and its newline must fit in it.
  const SCANNER_LIMIT: nat := 65536

  // ---------------------------------------------------------------- the scanner

  function DropCR(line: Bytes): Bytes {
    if line != [] && line[|line| - 1] == CR then line[..|line| - 1] else line
  }

  // What replaying the bytes b sends: each line without a trailing carriage return, then the
  // unterminated rest if there is one. It gives up at a line that does not fit.
  function Scan(b: Bytes): seq<Bytes>
    decreases |b|
  {
    var i := FirstBreak(b);
    if i >= SCANNER_LIMIT || b == [] then []
    else if i == |b| then [DropCR(b)]
    else [DropCR(b[..i])] + Scan(b[i + 1..])
  }

  ghost predicate Fit(lines: seq<Bytes>) {
    forall k :: 0 <= k < |lines| ==> |lines[k]| < 65536
  }

  // The loop of replayLog over the scanner's items.
  method ReplayLog(b: Bytes) returns (sent: seq<Bytes>)
    ensures sent == Scan(b)
  {
    sent := [];
    var rest := b;
    while rest != []
      invariant sent + Scan(rest) == Scan(b)
      decreases |rest|
    {
      var i := FirstBreak(rest);
      if i >= SCANNER_LIMIT {
        return;
      }
      if i == |rest| {
        ScanLast(rest);
        sent := sent + [DropCR(rest)];
        return;
      }
      ScanMore(rest, i);
      Regroup(sent, DropCR(rest[..i]), Scan(rest[i + 1..]));
      sent := sent + [DropCR(rest[..i])];
      rest := rest[i + 1..];
    }
  }

  lemma ScanMore(b: Bytes, i: nat)
    requires i == FirstBreak(b) < |b| && i < SCANNER_LIMIT
    ensures Scan(b) == [DropCR(b[..i])] + Scan(b[i + 1..])
  {
  }

  lemma ScanLast(b: Bytes)
    requires b != [] && FirstBreak(b) == |b| < SCANNER_LIMIT
    ensures Scan(b) == [DropCR(b)]
  {
  }

  // A sent item is the line itself, or the line less a final carriage return.
  predicate Shows(item: Bytes, line: Bytes) {
    if line != [] && line[|line| - 1] == 13 then item + [13] == line else item == line
  }

  lemma {:induction false} TailIsOpen(b: Bytes)
    ensures Tail(b) != [] <==> b != [] && b[|b| - 1] != 10
    decreases |b|
  {
    var i := FirstBreak(b);
    if i == |b| {
      assert Tail(b) == b;
    } else {
      var rest := b[i + 1..];
      TailStep(b, i);
      TailIsOpen(rest);
      assert rest != [] ==> rest[|rest| - 1] == b[|b| - 1];
    }
  }

  ghost predicate ShowsAll(sent: seq<Bytes>, lines: seq<Bytes>, open: bool, rest: Bytes) {
    && |sent| == |lines| + (if open then 1 else 0)
    && (forall k :: 0 <= k < |lines| ==> Shows(sent[k], lines[k]))
    && (open ==> Shows(sent[|lines|], rest))
  }

  lemma ShowsOneMore(item: Bytes, line: Bytes, sent: seq<Bytes>, lines: seq<Bytes>, open: bool, rest: Bytes)
    requires Shows(item, line) && ShowsAll(sent, lines, open, rest)
    ensures ShowsAll([item] + sent, [line] + lines, open, rest)
  {
  }

  lemma FitTail(line: Bytes, lines: seq<Bytes>)
    requires Fit([line] + lines)
    ensures |line| < 65536 && Fit(lines)
  {
    var all := [line] + lines;
    assert all[0] == line;
    assert forall k :: 0 <= k < |lines| ==> all[k + 1] == lines[k];
  }

  // The bytes end in an unterminated rest that fits the scanner.
  predicate EndsOpen(b: Bytes) {
    b != [] && b[|b| - 1] != 10 && |Tail(b)| < 65536
  }

  lemma NoLines(b: Bytes)
    requires FirstBreak(b) == |b|
    ensures ShowsAll(Scan(b), Lines(b), EndsOpen(b), Tail(b))
  {
    TailIsOpen(b);
    assert Lines(b) == [] && Tail(b) == b;
  }

  lemma DropCRShows(line: Bytes)
    ensures Shows(DropCR(line), line)
  {
  }

  // The scanner gives up at a line or rest that does not fit: nothing of it is sent.
  lemma LongRestIsNotSent(rest: Bytes)
    requires |rest| >= 65536 && (10 as Byte) !in rest
    ensures Scan(rest) == [] && Tail(rest) == rest
  {
    assert FirstBreak(rest) == |rest|;
  }

  // Replaying sends every complete line of what it read, in order, and one item more exactly when
  // the bytes do not end in a newline and the rest fits the scanner; that item is the rest.
  lemma {:induction false} ScanSendsLines(b: Bytes)
    requires Fit(Lines(b))
    ensures ShowsAll(Scan(b), Lines(b), EndsOpen(b), Tail(b))
    decreases |b|
  {
    var i := FirstBreak(b);
    if i == |b| {
      NoLines(b);
    } else {
      var rest := b[i + 1..];
      LinesStep(b, i);
      TailStep(b, i);
      FitTail(b[..i], Lines(rest));
      ScanSendsLines(rest);
      TailIsOpen(b);
      TailIsOpen(rest);
      ScanMore(b, i);
      DropCRShows(b[..i]);
      ShowsOneMore(DropCR(b[..i]), b[..i], Scan(rest), Lines(rest), EndsOpen(rest), Tail(rest));
    }
  }

  // ---------------------------------------------------------------- the interleaving

  datatype Client =
    | Away
    | Replaying(pos: nat)
    | Live(end: nat)      // how much of the file the replay covered

  datatype State = State(
    file: Bytes, buf: Bytes, published: seq<Bytes>,
    client: Client, queue: seq<Bytes>, received: seq<Bytes>,
    // history
    from: nat,        // lines published before the client subscribed
    base: nat,        // length of the file when it subscribed
    dropped: bool)    // a line came while the channel was full

  datatype Event =
    | WriteFile(p: Bytes)
    | PublishNext
    | Subscribe
    | ReadFile(n: nat)
    | EndOfFile
    | Receive

  const Start := State([], [], [], Away, [], [], 0, 0, false)

  predicate Enabled(s: State, e: Event) {
    match e
    case WriteFile(_) => FirstBreak(s.buf) == |s.buf|      // the previous Write has returned
    case PublishNext => FirstBreak(s.buf) < |s.buf|
    case Subscribe => s.client.Away?
    case ReadFile(n) => s.client.Replaying? && s.client.pos + n <= |s.file|
    case EndOfFile => s.client.Replaying? && s.client.pos == |s.file|
    case Receive => s.client.Live? && s.queue != []
  }

  function Exec(s: State, e: Event): State
    requires Enabled(s, e)
  {
    match e
    case WriteFile(p) => s.(file := s.file + p, buf := s.buf + p)
    case PublishNext =>
      var i := FirstBreak(s.buf);
      var t := s.(buf := s.buf[i + 1..], published := s.published + [s.buf[..i]]);
      if s.client.Away? then t
      else if |s.queue| < CAPACITY then t.(queue := s.queue + [s.buf[..i]])
      else t.(dropped := true)
    case Subscribe => s.(client := Replaying(0), from := |s.published|, base := |s.file|)
    case ReadFile(n) => s.(client := Replaying(s.client.pos + n))
    case EndOfFile => s.(client := Live(s.client.pos))
    case Receive => s.(queue := s.queue[1..], received := s.received + [s.queue[0]])
  }

  ghost predicate IsRun(states: seq<State>, events: seq<Event>) {
    && |states| == |events| + 1 && states[0] == Start
    && forall k :: 0 <= k < |events| ==> Enabled(states[k], events[k]) && states[k + 1] == Exec(states[k], events[k])
  }

  // ---------------------------------------------------------------- invariant

  // The file is ahead of the publisher by exactly the lines still in the buffer.
  ghost predicate WriterOk(s: State) {
    s.published + Lines(s.buf) == Lines(s.file) && Tail(s.buf) == Tail(s.file)
  }

  ghost predicate ChannelOk(s: State) {
    && (s.client.Away? ==> s.queue == [] && s.received == [] && !s.dropped)
    && (!s.client.Away? ==>
          && s.from <= |s.published|
          && (!s.dropped ==> s.received + s.queue == s.published[s.from..]))
  }

  ghost predicate ReplayOk(s: State) {
    && (!s.client.Away? ==> s.base <= |s.file| && s.from <= |s.published| && s.published[..s.from] <= Lines(s.file[..s.base]))
    && (s.client.Replaying? ==> s.client.pos <= |s.file|)
    && (s.client.Live? ==> s.base <= s.client.end <= |s.file|)
  }

  ghost predicate Inv(s: State) {
    WriterOk(s) && ChannelOk(s) && ReplayOk(s)
  }

  lemma WriterKeptByWrite(s: State, p: Bytes)
    requires WriterOk(s) && FirstBreak(s.buf) == |s.buf|
    ensures WriterOk(Exec(s, WriteFile(p)))
  {
    assert Lines(s.buf) == [] && Tail(s.buf) == s.buf;
    LinesOfConcat(s.file, p);
    assert s.published == Lines(s.file);
  }

  // Moving the first line of the buffer to the published lines.
  lemma NextLineMoves(published: seq<Bytes>, buf: Bytes, i: nat)
    requires i == FirstBreak(buf) < |buf|
    ensures published + [buf[..i]] + Lines(buf[i + 1..]) == published + Lines(buf)
  {
    LinesStep(buf, i);
    Regroup(published, buf[..i], Lines(buf[i + 1..]));
  }

  lemma WriterIs(s: State, published: seq<Bytes>, buf: Bytes)
    requires s.published == published && s.buf == buf
    requires published + Lines(buf) == Lines(s.file) && Tail(buf) == Tail(s.file)
    ensures WriterOk(s)
  {
  }

  lemma WriterKeptByPublish(s: State)
    requires WriterOk(s) && Enabled(s, PublishNext)
    ensures WriterOk(Exec(s, PublishNext))
  {
    var i := FirstBreak(s.buf);
    var published, buf := s.published + [s.buf[..i]], s.buf[i + 1..];
    NextLineMoves(s.published, s.buf, i);
    TailStep(s.buf, i);
    PublishedNext(s);
    WriterIs(Exec(s, PublishNext), published, buf);
  }

  lemma PublishedNext(s: State)
    requires Enabled(s, PublishNext)
    ensures var i, t := FirstBreak(s.buf), Exec(s, PublishNext);
            t.file == s.file && t.buf == s.buf[i + 1..] && t.published == s.published + [s.buf[..i]]
  {
  }

  lemma WriterKept(s: State, e: Event)
    requires Inv(s) && Enabled(s, e)
    ensures WriterOk(Exec(s, e))
  {
    match e {
      case WriteFile(p) => WriterKeptByWrite(s, p);
      case PublishNext => WriterKeptByPublish(s);
      case _ =>
    }
  }

  lemma ChannelKept(s: State, e: Event)
    requires Inv(s) && Enabled(s, e)
    ensures ChannelOk(Exec(s, e))
  {
    var t := Exec(s, e);
    match e {
      case PublishNext =>
        var line := s.buf[..FirstBreak(s.buf)];
        if !s.client.Away? && !t.dropped {
          assert t.published[s.from..] == s.published[s.from..] + [line];
          assert t.received + t.queue == s.received + s.queue + [line];
        }
      case Receive =>
        assert t.received + t.queue == s.received + s.queue;
      case _ =>
    }
  }

  lemma ReplayKept(s: State, e: Event)
    requires Inv(s) && Enabled(s, e)
    ensures ReplayOk(Exec(s, e))
  {
    var t := Exec(s, e);
    if !t.client.Away? {
      if e.Subscribe? {
        assert t.file[..t.base] == s.file;
        assert t.published[..t.from] == s.published;
      } else {
        assert t.file[..t.base] == s.file[..s.base];
        assert t.published[..t.from] == s.published[..s.from];
      }
    }
  }

  lemma {:induction false} InvHolds(states: seq<State>, events: seq<Event>, n: nat)
    requires IsRun(states, events) && n < |states|
    ensures Inv(states[n])
  {
    if n == 0 {
      assert Lines([]) == [] && Tail([]) == [];
    } else {
      InvHolds(states, events, n - 1);
      var s, e := states[n - 1], events[n - 1];
      assert Enabled(s, e) && states[n - 1 + 1] == Exec(s, e);
      WriterKept(s, e);
      ChannelKept(s, e);
      ReplayKept(s, e);
    }
  }

  // ---------------------------------------------------------------- no gap

  // What the client has been sent by the replay.
  function Replayed(s: State): seq<Bytes>
    requires s.client.Live? && s.client.end <= |s.file|
  {
    Scan(s.file[..s.client.end])
  }

  lemma PrefixOfSum(x: seq<Bytes>, y: seq<Bytes>)
    ensures x <= x + y
  {
  }

  lemma CutInTwo(a: Bytes, n: nat)
    requires n <= |a|
    ensures a == a[..n] + a[n..]
  {
  }

  lemma MoreBytesMoreLines(a: Bytes, b: Bytes)
    ensures Lines(a) <= Lines(a + b)
  {
    LinesOfConcat(a, b);
    PrefixOfSum(Lines(a), Lines(Tail(a) + b));
  }

  // The lines published before the subscription are the first complete lines of what was replayed.
  lemma ReplayCovers(s: State)
    requires Inv(s) && s.client.Live? && Fit(Lines(s.file))
    ensures var read := s.file[..s.client.end];
            && s.from <= |Lines(read)| && Fit(Lines(read))
            && s.published[..s.from] <= Lines(read) <= Lines(s.file)
  {
    var before, read := s.file[..s.base], s.file[..s.client.end];
    CutInTwo(s.file, s.client.end);
    CutInTwo(read, s.base);
    MoreBytesMoreLines(read, s.file[s.client.end..]);
    assert read[..s.base] == before;
    MoreBytesMoreLines(before, read[s.base..]);
    assert forall k :: 0 <= k < |Lines(read)| ==> Lines(read)[k] == Lines(s.file)[k];
  }

  // Once the replay is over: the lines published before the subscription were all replayed, in
  // order and from the first, less a final carriage return (byte 13); the ones published after it
  // came, or will come, through the channel.
  lemma NoGap(states: seq<State>, events: seq<Event>, n: nat)
    requires IsRun(states, events) && n < |states|
    requires states[n].client.Live? && !states[n].dropped && Fit(Lines(states[n].file))
    ensures var s := states[n];
            && s.client.end <= |s.file| && s.from <= |s.published| && s.from <= |Replayed(s)|
            && (forall k :: 0 <= k < s.from ==>
                  var line := s.published[k];
                  if line != [] && line[|line| - 1] == 13 then Replayed(s)[k] + [13] == line else Replayed(s)[k] == line)
            && s.received + s.queue == s.published[s.from..]
  {
    InvHolds(states, events, n);
    var s := states[n];
    ReplayCovers(s);
    ScanSendsLines(s.file[..s.client.end]);
    forall k | 0 <= k < s.from ensures Shows(Replayed(s)[k], s.published[k]) {
      assert s.published[..s.from][k] == Lines(s.file[..s.client.end])[k];
    }
  }

  // Every complete line of the log reaches the client: once the writer is between two writes,
  // line k is in the replay, less a final carriage return, or in the channel.
  lemma EveryLineArrives(states: seq<State>, events: seq<Event>, n: nat, k: nat)
    requires IsRun(states, events) && n < |states|
    requires states[n].client.Live? && !states[n].dropped && Fit(Lines(states[n].file))
    requires FirstBreak(states[n].buf) == |states[n].buf| && k < |Lines(states[n].file)|
    ensures var s := states[n]; var line := Lines(s.file)[k];
            && s.client.end <= |s.file|
            && if k >= s.from then k - s.from < |s.received + s.queue| && (s.received + s.queue)[k - s.from] == line
               else && k < |Replayed(s)|
                    && if line != [] && line[|line| - 1] == 13 then Replayed(s)[k] + [13] == line else Replayed(s)[k] == line
  {
    InvHolds(states, events, n);
    NoGap(states, events, n);
    assert states[n].published == Lines(states[n].file);
  }

  // Subscribing first is what makes it work for every interleaving; the full channel is the
  // only way to lose a line, and then at least the channel's capacity was queued.
  lemma DropOnlyWhenFull(states: seq<State>, events: seq<Event>, n: nat)
    requires IsRun(states, events) && n < |events|
    requires !states[n].dropped && states[n + 1].dropped
    ensures events[n].PublishNext? && |states[n].queue| >= 64
  {
    assert Enabled(states[n], events[n]) && states[n + 1] == Exec(states[n], events[n]);
  }
}
