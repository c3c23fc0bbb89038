/** Environment variables as text: the parser on the server, the parser and the printer in the
    browser. The two sides disagree on two characters of white space, and it matters. */
module EnvText {
  import opened Basics

  datatype EnvVar = EnvVar(key: string, value: string)

  // ---------------------------------------------------------------- white space

  predicate CommonSpace(c: char) {
    || '\t' <= c <= '\r' || c == ' ' || c == '\U{A0}' || c == '\U{1680}' || '\U{2000}' <= c <= '\U{200A}'
    || c == '\U{2028}' || c == '\U{2029}' || c == '\U{202F}' || c == '\U{205F}' || c == '\U{3000}'
  }

  // strings.TrimSpace also trims NEL, String.prototype.trim also trims the byte order mark.
  predicate GoSpace(c: char) { CommonSpace(c) || c == '\U{85}' }

  predicate JsSpace(c: char) { CommonSpace(c) || c == '\U{FEFF}' }

  type Spaces = char -> bool

  predicate Usual(sp: Spaces) {
    sp('\n') && !sp('=') && !sp('#')
  }

  function TrimLeft(sp: Spaces, s: string): string {
    if s != "" && sp(s[0]) then TrimLeft(sp, s[1..]) else s
  }

  function TrimRight(sp: Spaces, s: string): string {
    if s != "" && sp(s[|s| - 1]) then TrimRight(sp, s[..|s| - 1]) else s
  }

  function Trim(sp: Spaces, s: string): string {
    TrimRight(sp, TrimLeft(sp, s))
  }

  // ---------------------------------------------------------------- lines

  function IndexOf(s: string, c: char): (i: nat)
    ensures i <= |s| && (i < |s| ==> s[i] == c) && forall k :: 0 <= k < i ==> s[k] != c
  {
    if s == "" || s[0] == c then 0 else 1 + IndexOf(s[1..], c)
  }

  predicate Lacks(s: string, c: char) {
    forall k :: 0 <= k < |s| ==> s[k] != c
  }

  function Split(s: string): seq<string>
    decreases |s|
  {
    var i := IndexOf(s, '\n');
    if i == |s| then [s] else [s[..i]] + Split(s[i + 1..])
  }

  function Join(lines: seq<string>): string {
    if lines == [] then ""
    else if |lines| == 1 then lines[0]
    else lines[0] + "\n" + Join(lines[1..])
  }

  // ---------------------------------------------------------------- parser and printer

  function ParseLine(sp: Spaces, line: string): Option<EnvVar> {
    var t := Trim(sp, line);
    if t == "" || t[0] == '#' then None
    else
      var i := IndexOf(t, '=');
      if i == |t| then None else Some(EnvVar(t[..i], t[i + 1..]))
  }

  function ParseLines(sp: Spaces, lines: seq<string>): seq<EnvVar> {
    if lines == [] then []
    else
      var e := ParseLine(sp, lines[0]);
      if e.None? then ParseLines(sp, lines[1..]) else [e.value] + ParseLines(sp, lines[1..])
  }

  function Parse(sp: Spaces, text: string): seq<EnvVar> {
    ParseLines(sp, Split(text))
  }

  // What the printer keeps: entries whose key is not blank, with the key trimmed.
  function Clean(vars: seq<EnvVar>): seq<EnvVar> {
    if vars == [] then []
    else
      var k := Trim(JsSpace, vars[0].key);
      if k == "" then Clean(vars[1..]) else [EnvVar(k, vars[0].value)] + Clean(vars[1..])
  }

  function LineOf(v: EnvVar): string { v.key + "=" + v.value }

  function LinesOf(vars: seq<EnvVar>): seq<string> {
    if vars == [] then [] else [LineOf(vars[0])] + LinesOf(vars[1..])
  }

  function Print(vars: seq<EnvVar>): string {
    Join(LinesOf(Clean(vars)))
  }

  // The loop in GetEnvVars.
  method ParseOnServer(text: string) returns (vars: seq<EnvVar>)
    ensures vars == Parse(GoSpace, text)
  {
    vars := [];
    var lines := Split(text);
    for i := 0 to |lines|
      invariant vars + ParseLines(GoSpace, lines[i..]) == Parse(GoSpace, text)
    {
      assert lines[i..][0] == lines[i] && lines[i..][1..] == lines[i + 1..];
      var line := Trim(GoSpace, lines[i]);
      if line == "" || line[0] == '#' {
        continue;
      }
      var eq := IndexOf(line, '=');
      if eq < |line| {
        assert ParseLine(GoSpace, lines[i]) == Some(EnvVar(line[..eq], line[eq + 1..]));
        vars := vars + [EnvVar(line[..eq], line[eq + 1..])];
      } else {
        assert ParseLine(GoSpace, lines[i]).None?;
      }
    }
  }

  // The loop in parseEnvFile.
  method ParseInBrowser(text: string) returns (parsed: seq<EnvVar>)
    ensures parsed == Parse(JsSpace, text)
  {
    parsed := [];
    var lines := Split(text);
    for i := 0 to |lines|
      invariant parsed + ParseLines(JsSpace, lines[i..]) == Parse(JsSpace, text)
    {
      assert lines[i..][0] == lines[i] && lines[i..][1..] == lines[i + 1..];
      var t := Trim(JsSpace, lines[i]);
      if t == "" || t[0] == '#' {
        continue;
      }
      var idx := IndexOf(t, '=');
      if idx == |t| {
        assert ParseLine(JsSpace, lines[i]).None?;
        continue;
      }
      assert ParseLine(JsSpace, lines[i]) == Some(EnvVar(t[..idx], t[idx + 1..]));
      parsed := parsed + [EnvVar(t[..idx], t[idx + 1..])];
    }
  }

  // ---------------------------------------------------------------- trimming

  lemma {:induction false} TrimLeftIs(sp: Spaces, s: string)
    ensures var t := TrimLeft(sp, s);
            |t| <= |s| && t == s[|s| - |t|..] && (t != "" ==> !sp(t[0])) && (s != "" && sp(s[0]) ==> |t| < |s|)
    ensures forall k :: 0 <= k < |s| - |TrimLeft(sp, s)| ==> sp(s[k])
    ensures s != "" && !sp(s[0]) ==> TrimLeft(sp, s) == s
  {
    if s != "" && sp(s[0]) {
      TrimLeftIs(sp, s[1..]);
    }
  }

  lemma {:induction false} TrimRightIs(sp: Spaces, s: string)
    ensures var t := TrimRight(sp, s); |t| <= |s| && t == s[..|t|] && (t != "" ==> !sp(t[|t| - 1]))
    ensures s != "" && !sp(s[0]) ==> TrimRight(sp, s) != ""
    ensures s == "" || !sp(s[|s| - 1]) <==> TrimRight(sp, s) == s
  {
    if s != "" && sp(s[|s| - 1]) {
      TrimRightIs(sp, s[..|s| - 1]);
    }
  }

  lemma SliceOfSuffix(s: string, i: nat, j: nat)
    requires i <= j <= |s|
    ensures s[i..j] == s[i..][..j - i]
  {
  }

  // Trimming cuts a prefix and a suffix.
  lemma TrimWindow(sp: Spaces, s: string) returns (i: nat, j: nat)
    ensures i <= j <= |s| && Trim(sp, s) == s[i..j]
    ensures s != "" && sp(s[0]) ==> j - i < |s|
    ensures s != "" && !sp(s[0]) ==> i == 0
  {
    var l := TrimLeft(sp, s);
    TrimLeftIs(sp, s);
    TrimRightIs(sp, l);
    i := |s| - |l|;
    j := i + |Trim(sp, s)|;
    SliceOfSuffix(s, i, j);
  }

  lemma TrimEnds(sp: Spaces, s: string)
    ensures var t := Trim(sp, s); t != "" ==> !sp(t[0]) && !sp(t[|t| - 1])
    ensures s != "" && !sp(s[0]) ==> Trim(sp, s) != "" && Trim(sp, s)[0] == s[0]
  {
    TrimLeftIs(sp, s);
    TrimRightIs(sp, TrimLeft(sp, s));
  }

  lemma TrimLacks(sp: Spaces, s: string, c: char)
    ensures Lacks(s, c) ==> Lacks(Trim(sp, s), c)
  {
    var i, j := TrimWindow(sp, s);
    assert forall k :: 0 <= k < j - i ==> s[i..j][k] == s[i + k];
  }

  lemma TrimOfTrimmed(sp: Spaces, s: string)
    requires s != "" ==> !sp(s[0]) && !sp(s[|s| - 1])
    ensures Trim(sp, s) == s
  {
    TrimLeftIs(sp, s);
    TrimRightIs(sp, s);
  }

  lemma TrimSame(sp: Spaces, s: string)
    ensures |Trim(sp, s)| <= |s| && (|Trim(sp, s)| == |s| ==> Trim(sp, s) == s)
  {
    var i, j := TrimWindow(sp, s);
  }

  predicate Blank(sp: Spaces, s: string) {
    forall k :: 0 <= k < |s| ==> sp(s[k])
  }

  // A text that neither begins nor ends with white space.
  predicate Trimmed(sp: Spaces, s: string) {
    s != "" ==> !sp(s[0]) && !sp(s[|s| - 1])
  }

  lemma {:induction false} TrimLeftPast(sp: Spaces, pre: string, t: string)
    requires Blank(sp, pre) && t != "" && !sp(t[0])
    ensures TrimLeft(sp, pre + t) == t
  {
    if pre == "" {
      assert pre + t == t;
    } else {
      assert (pre + t)[1..] == pre[1..] + t;
      TrimLeftPast(sp, pre[1..], t);
    }
  }

  lemma {:induction false} TrimRightPast(sp: Spaces, t: string, post: string)
    requires Blank(sp, post) && t != "" && !sp(t[|t| - 1])
    ensures TrimRight(sp, t + post) == t
  {
    if post == "" {
      assert t + post == t;
    } else {
      var n := |post| - 1;
      assert (t + post)[..|t| + n] == t + post[..n];
      TrimRightPast(sp, t, post[..n]);
    }
  }

  // Trimming takes white space off both ends, all of it and nothing else.
  lemma TrimOff(sp: Spaces, pre: string, t: string, post: string)
    requires Blank(sp, pre) && Blank(sp, post) && t != "" && Trimmed(sp, t)
    ensures Trim(sp, pre + t + post) == t
  {
    assert pre + t + post == pre + (t + post);
    TrimLeftPast(sp, pre, t + post);
    TrimRightPast(sp, t, post);
  }

  lemma {:induction false} TrimRightCuts(sp: Spaces, s: string) returns (post: string)
    ensures s == TrimRight(sp, s) + post && Blank(sp, post)
  {
    post := "";
    if s != "" && sp(s[|s| - 1]) {
      var rest := TrimRightCuts(sp, s[..|s| - 1]);
      post := rest + [s[|s| - 1]];
    }
  }

  lemma {:induction false} TrimLeftCuts(sp: Spaces, s: string) returns (pre: string)
    ensures s == pre + TrimLeft(sp, s) && Blank(sp, pre)
  {
    pre := "";
    if s != "" && sp(s[0]) {
      var rest := TrimLeftCuts(sp, s[1..]);
      pre := [s[0]] + rest;
    }
  }

  lemma TrimCuts(sp: Spaces, s: string) returns (pre: string, post: string)
    ensures s == pre + Trim(sp, s) + post && Blank(sp, pre) && Blank(sp, post) && Trimmed(sp, Trim(sp, s))
  {
    pre := TrimLeftCuts(sp, s);
    post := TrimRightCuts(sp, TrimLeft(sp, s));
    TrimEnds(sp, s);
  }

  // Both sides agree on ASCII, and beyond it except for two characters.
  lemma SpacesDiffer(c: char)
    ensures GoSpace(c) != JsSpace(c) <==> c == '\U{85}' || c == '\U{FEFF}'
    ensures c < '\U{80}' ==> (GoSpace(c) <==> c in {' ', '\t', '\n', '\U{0B}', '\U{0C}', '\r'})
  {
  }

  // ---------------------------------------------------------------- splitting

  lemma IndexOfAt(a: string, c: char, b: string)
    requires Lacks(a, c)
    ensures IndexOf(a + [c] + b, c) == |a|
  {
    var s := a + [c] + b;
    assert s[|a|] == c;
    assert forall k :: 0 <= k < |a| ==> s[k] == a[k];
  }

  lemma JoinCons(line: string, lines: seq<string>)
    requires lines != []
    ensures Join([line] + lines) == line + ['\n'] + Join(lines)
  {
    assert ([line] + lines)[1..] == lines;
  }

  lemma SplitAfterLine(line: string, rest: string)
    requires Lacks(line, '\n')
    ensures Split(line + ['\n'] + rest) == [line] + Split(rest)
  {
    var s := line + ['\n'] + rest;
    IndexOfAt(line, '\n', rest);
    assert s[..|line|] == line && s[|line| + 1..] == rest;
  }

  lemma {:induction false} SplitOfJoin(lines: seq<string>)
    requires lines != [] && forall k :: 0 <= k < |lines| ==> Lacks(lines[k], '\n')
    ensures Split(Join(lines)) == lines
  {
    if |lines| == 1 {
      assert IndexOf(lines[0], '\n') == |lines[0]|;
    } else {
      SplitOfJoin(lines[1..]);
      JoinCons(lines[0], lines[1..]);
      SplitAfterLine(lines[0], Join(lines[1..]));
      assert lines == [lines[0]] + lines[1..];
    }
  }

  lemma {:induction false} SplitPiecesLackBreaks(s: string)
    ensures forall k :: 0 <= k < |Split(s)| ==> Lacks(Split(s)[k], '\n')
    decreases |s|
  {
    var i := IndexOf(s, '\n');
    if i < |s| {
      SplitPiecesLackBreaks(s[i + 1..]);
    }
  }

  // ---------------------------------------------------------------- one line

  // What a parsed entry looks like.
  predicate EntryShaped(sp: Spaces, v: EnvVar) {
    && OneLine(v)
    && (v.key != "" ==> v.key[0] != '#' && !sp(v.key[0]))
    && (v.value != "" ==> !sp(v.value[|v.value| - 1]))
  }

  lemma ParseLineShape(sp: Spaces, line: string)
    requires Lacks(line, '\n')
    ensures ParseLine(sp, line).Some? ==> EntryShaped(sp, ParseLine(sp, line).value)
  {
    var t := Trim(sp, line);
    TrimEnds(sp, line);
    TrimLacks(sp, line, '\n');
    var i := IndexOf(t, '=');
    if i < |t| {
      assert forall k :: 0 <= k < i ==> t[..i][k] == t[k];
      assert t[i + 1..] != "" ==> t[i + 1..][|t| - i - 2] == t[|t| - 1];
    }
  }

  // An entry whose key is not blank reads back from its own line.
  lemma ParseLineOf(sp: Spaces, v: EnvVar)
    requires Usual(sp) && EntryShaped(sp, v) && v.key != ""
    ensures ParseLine(sp, LineOf(v)) == Some(v)
  {
    var l := LineOf(v);
    assert l[|l| - 1] == if v.value != "" then v.value[|v.value| - 1] else '=';
    assert l[0] == v.key[0];
    TrimOfTrimmed(sp, l);
    IndexOfAt(v.key, '=', v.value);
    assert l[..|v.key|] == v.key && l[|v.key| + 1..] == v.value;
  }

  // The line as written: white space, a key, '=', a value, white space.
  predicate Written(sp: Spaces, line: string, pre: string, v: EnvVar, post: string) {
    && line == pre + v.key + "=" + v.value + post
    && Blank(sp, pre) && Blank(sp, post)
    && Lacks(v.key, '=')
    && (v.key != "" ==> !sp(v.key[0]) && v.key[0] != '#')
    && (v.value != "" ==> !sp(v.value[|v.value| - 1]))
  }

  // Exactly the lines written so are variables, and they give the key and the value written.
  lemma WrittenParses(sp: Spaces, line: string, pre: string, v: EnvVar, post: string)
    requires Usual(sp) && Written(sp, line, pre, v, post)
    ensures ParseLine(sp, line) == Some(v)
  {
    var t := LineOf(v);
    assert line == pre + t + post;
    assert t[0] == if v.key != "" then v.key[0] else '=';
    assert t[|t| - 1] == if v.value != "" then v.value[|v.value| - 1] else '=';
    TrimOff(sp, pre, t, post);
    IndexOfAt(v.key, '=', v.value);
    assert t[..|v.key|] == v.key && t[|v.key| + 1..] == v.value;
  }

  lemma ParsedWasWritten(sp: Spaces, line: string) returns (pre: string, post: string)
    requires ParseLine(sp, line).Some?
    ensures Written(sp, line, pre, ParseLine(sp, line).value, post)
  {
    pre, post := TrimCuts(sp, line);
    var t := Trim(sp, line);
    var i := IndexOf(t, '=');
    assert t == t[..i] + "=" + t[i + 1..];
    assert t[i + 1..] != "" ==> t[i + 1..][|t| - i - 2] == t[|t| - 1];
  }

  function Size(v: EnvVar): nat { |v.key| + |v.value| + 2 }

  // A line with a key free of '=' parses to nothing or to an entry no larger; strictly smaller
  // when the key starts with white space, and nothing when it starts with '#'.
  lemma ParseLineShrinks(sp: Spaces, v: EnvVar)
    requires Usual(sp) && Lacks(v.key, '=')
    ensures var e := ParseLine(sp, LineOf(v));
            && (e.Some? ==> Size(e.value) <= Size(v))
            && (e.Some? && v.key != "" && sp(v.key[0]) ==> Size(e.value) < Size(v))
            && (v.key != "" && v.key[0] == '#' ==> e.None?)
  {
    var l := LineOf(v);
    assert v.key != "" ==> l[0] == v.key[0];
    TrimSame(sp, l);
    TrimEnds(sp, l);
    var i, j := TrimWindow(sp, l);
  }

  // ---------------------------------------------------------------- lists of entries

  predicate AllShaped(sp: Spaces, vars: seq<EnvVar>) {
    forall k :: 0 <= k < |vars| ==> EntryShaped(sp, vars[k])
  }

  lemma {:induction false} ParseLinesShape(sp: Spaces, lines: seq<string>)
    requires forall k :: 0 <= k < |lines| ==> Lacks(lines[k], '\n')
    ensures AllShaped(sp, ParseLines(sp, lines))
  {
    if lines != [] {
      ParseLineShape(sp, lines[0]);
      ParseLinesShape(sp, lines[1..]);
    }
  }

  lemma ParseShape(sp: Spaces, text: string)
    ensures AllShaped(sp, Parse(sp, text))
  {
    SplitPiecesLackBreaks(text);
    ParseLinesShape(sp, Split(text));
  }

  function TotalSize(vars: seq<EnvVar>): nat {
    if vars == [] then 0 else Size(vars[0]) + TotalSize(vars[1..])
  }

  // An entry the printer leaves as it is.
  predicate Kept(v: EnvVar) {
    v.key != "" && Trim(JsSpace, v.key) == v.key
  }

  predicate AllKept(vars: seq<EnvVar>) {
    forall k :: 0 <= k < |vars| ==> Kept(vars[k])
  }

  lemma KeptHeadTail(v: EnvVar, rest: seq<EnvVar>)
    ensures AllKept([v] + rest) <==> Kept(v) && AllKept(rest)
    ensures TotalSize([v] + rest) == Size(v) + TotalSize(rest)
  {
    var all := [v] + rest;
    assert all[1..] == rest;
    if AllKept(all) {
      assert Kept(all[0]);
      forall k | 0 <= k < |rest| ensures Kept(rest[k]) {
        assert all[k + 1] == rest[k];
      }
    }
  }

  lemma {:induction false} CleanKeeps(vars: seq<EnvVar>)
    ensures AllKept(Clean(vars))
  {
    if vars != [] {
      CleanKeeps(vars[1..]);
      var k := Trim(JsSpace, vars[0].key);
      TrimEnds(JsSpace, vars[0].key);
      TrimOfTrimmed(JsSpace, k);
      KeptHeadTail(EnvVar(k, vars[0].value), Clean(vars[1..]));
    }
  }

  lemma {:induction false} CleanShrinks(vars: seq<EnvVar>)
    ensures TotalSize(Clean(vars)) <= TotalSize(vars)
    ensures TotalSize(Clean(vars)) == TotalSize(vars) <==> AllKept(vars)
    ensures AllKept(vars) ==> Clean(vars) == vars
  {
    if vars != [] {
      CleanShrinks(vars[1..]);
      var k := Trim(JsSpace, vars[0].key);
      TrimSame(JsSpace, vars[0].key);
      assert vars == [vars[0]] + vars[1..];
      KeptHeadTail(vars[0], vars[1..]);
      KeptHeadTail(EnvVar(k, vars[0].value), Clean(vars[1..]));
    }
  }

  // Nothing in an entry that would break its line or move its first '='.
  predicate OneLine(v: EnvVar) {
    Lacks(v.key, '=') && Lacks(v.key, '\n') && Lacks(v.value, '\n')
  }

  predicate AllOneLine(vars: seq<EnvVar>) {
    forall k :: 0 <= k < |vars| ==> OneLine(vars[k])
  }

  lemma {:induction false} CleanStaysOneLine(vars: seq<EnvVar>)
    requires AllOneLine(vars)
    ensures AllOneLine(Clean(vars))
  {
    if vars != [] {
      CleanStaysOneLine(vars[1..]);
      assert OneLine(vars[0]);
      TrimLacks(JsSpace, vars[0].key, '=');
      TrimLacks(JsSpace, vars[0].key, '\n');
      assert OneLine(EnvVar(Trim(JsSpace, vars[0].key), vars[0].value));
    }
  }

  lemma {:induction false} LinesLackBreaks(vars: seq<EnvVar>)
    requires AllOneLine(vars)
    ensures |LinesOf(vars)| == |vars| && forall k :: 0 <= k < |vars| ==> Lacks(LinesOf(vars)[k], '\n')
  {
    if vars != [] {
      LinesLackBreaks(vars[1..]);
      assert OneLine(vars[0]);
      assert Lacks(LineOf(vars[0]), '\n');
    }
  }

  lemma EmptyText(sp: Spaces)
    ensures Parse(sp, "") == []
  {
    assert Split("") == [""];
    assert [""][1..] == [];
    assert ParseLine(sp, [""][0]).None?;
  }

  // Printed text parses line by line.
  lemma ParseOfPrint(sp: Spaces, vars: seq<EnvVar>)
    requires AllOneLine(vars)
    ensures Parse(sp, Print(vars)) == ParseLines(sp, LinesOf(Clean(vars)))
  {
    CleanStaysOneLine(vars);
    LinesLackBreaks(Clean(vars));
    if Clean(vars) == [] {
      EmptyText(sp);
    } else {
      SplitOfJoin(LinesOf(Clean(vars)));
    }
  }

  lemma {:induction false} ParseLinesOf(sp: Spaces, vars: seq<EnvVar>)
    requires Usual(sp) && AllShaped(sp, vars) && forall k :: 0 <= k < |vars| ==> vars[k].key != ""
    ensures ParseLines(sp, LinesOf(vars)) == vars
  {
    if vars != [] {
      ParseLineOf(sp, vars[0]);
      ParseLinesOf(sp, vars[1..]);
      assert LinesOf(vars)[1..] == LinesOf(vars[1..]);
    }
  }

  // A key the parser would not read back as it stands.
  predicate BadKey(sp: Spaces, v: EnvVar) {
    v.key != "" && (v.key[0] == '#' || sp(v.key[0]))
  }

  predicate AnyBadKey(sp: Spaces, vars: seq<EnvVar>) {
    exists k :: 0 <= k < |vars| && BadKey(sp, vars[k])
  }

  lemma {:induction false} ParseLinesShrink(sp: Spaces, vars: seq<EnvVar>)
    requires Usual(sp) && AllOneLine(vars)
    ensures TotalSize(ParseLines(sp, LinesOf(vars))) <= TotalSize(vars)
    ensures AnyBadKey(sp, vars) ==> TotalSize(ParseLines(sp, LinesOf(vars))) < TotalSize(vars)
  {
    if vars != [] {
      assert OneLine(vars[0]);
      ParseLineShrinks(sp, vars[0]);
      ParseLinesShrink(sp, vars[1..]);
      assert LinesOf(vars)[1..] == LinesOf(vars[1..]);
      var e := ParseLine(sp, LineOf(vars[0]));
      if e.Some? {
        KeptHeadTail(e.value, ParseLines(sp, LinesOf(vars[1..])));
      }
      if AnyBadKey(sp, vars) {
        var k :| 0 <= k < |vars| && BadKey(sp, vars[k]);
        assert k > 0 ==> vars[1..][k - 1] == vars[k];
      }
    }
  }

  lemma {:induction false} JoinLength(vars: seq<EnvVar>)
    ensures |Join(LinesOf(vars))| == if vars == [] then 0 else TotalSize(vars) - 1
  {
    if |vars| == 1 {
      assert LinesOf(vars) == [LineOf(vars[0])];
    } else if vars != [] {
      JoinLength(vars[1..]);
      assert LinesOf(vars)[1..] == LinesOf(vars[1..]);
    }
  }

  // ---------------------------------------------------------------- parse after print

  predicate Printable(sp: Spaces, vars: seq<EnvVar>) {
    forall k :: 0 <= k < |vars| ==> Kept(vars[k]) && EntryShaped(sp, vars[k])
  }

  // A list reads back from its printed form exactly when every key is trimmed, not empty, free of
  // '=' and newlines, starts neither with '#' nor with the reader's white space, and every value is
  // free of newlines and of trailing white space.
  lemma ParseAfterPrint(sp: Spaces, vars: seq<EnvVar>)
    requires Usual(sp)
    ensures Parse(sp, Print(vars)) == vars <==> Printable(sp, vars)
  {
    if Printable(sp, vars) {
      CleanShrinks(vars);
      ParseOfPrint(sp, vars);
      ParseLinesOf(sp, vars);
    }
    if Parse(sp, Print(vars)) == vars {
      ParseShape(sp, Print(vars));
      ParseOfPrint(sp, vars);
      CleanStaysOneLine(vars);
      ParseLinesShrink(sp, Clean(vars));
      CleanShrinks(vars);
    }
  }

  // ---------------------------------------------------------------- line by line

  lemma {:induction false} JoinOfConcat(a: seq<string>, b: seq<string>)
    requires a != [] && b != []
    ensures Join(a + b) == Join(a) + ['\n'] + Join(b)
  {
    assert a + b == [a[0]] + (a[1..] + b);
    JoinCons(a[0], a[1..] + b);
    if |a| == 1 {
      assert a[1..] + b == b;
    } else {
      JoinOfConcat(a[1..], b);
      assert a == [a[0]] + a[1..];
      JoinCons(a[0], a[1..]);
    }
  }

  lemma CutAt(s: string, i: nat)
    requires i < |s| && s[i] == '\n'
    ensures s == s[..i] + ['\n'] + s[i + 1..]
  {
  }

  lemma {:induction false} JoinOfSplit(s: string)
    ensures Split(s) != [] && Join(Split(s)) == s
    decreases |s|
  {
    var i := IndexOf(s, '\n');
    if i < |s| {
      var line, rest := s[..i], s[i + 1..];
      JoinOfSplit(rest);
      CutAt(s, i);
      assert Split(s) == [line] + Split(rest);
      JoinCons(line, Split(rest));
    }
  }

  lemma SplitOfConcat(a: string, b: string)
    ensures Split(a + ['\n'] + b) == Split(a) + Split(b)
  {
    JoinOfSplit(a);
    JoinOfSplit(b);
    SplitPiecesLackBreaks(a);
    SplitPiecesLackBreaks(b);
    JoinOfConcat(Split(a), Split(b));
    SplitOfJoin(Split(a) + Split(b));
  }

  lemma {:induction false} ParseLinesOfConcat(sp: Spaces, a: seq<string>, b: seq<string>)
    ensures ParseLines(sp, a + b) == ParseLines(sp, a) + ParseLines(sp, b)
  {
    if a == [] {
      assert a + b == b;
    } else {
      ParseLinesOfConcat(sp, a[1..], b);
      assert (a + b)[1..] == a[1..] + b;
    }
  }

  // A text is read line by line, and each line for itself.
  lemma ParseOfConcat(sp: Spaces, a: string, b: string)
    ensures Parse(sp, a + ['\n'] + b) == Parse(sp, a) + Parse(sp, b)
  {
    SplitOfConcat(a, b);
    ParseLinesOfConcat(sp, Split(a), Split(b));
  }

  // One entry prints as its trimmed key, '=' and its value as it stands; a blank key prints nothing.
  lemma PrintOfOne(v: EnvVar)
    ensures var k := Trim(JsSpace, v.key);
            Print([v]) == if k == "" then "" else k + "=" + v.value
  {
    var k := Trim(JsSpace, v.key);
    assert [v][1..] == [];
    assert Clean([v]) == if k == "" then [] else [EnvVar(k, v.value)];
    if k != "" {
      assert LinesOf([EnvVar(k, v.value)]) == [k + "=" + v.value] by { assert [EnvVar(k, v.value)][1..] == []; }
    }
  }

  lemma {:induction false} CleanOfConcat(a: seq<EnvVar>, b: seq<EnvVar>)
    ensures Clean(a + b) == Clean(a) + Clean(b)
  {
    if a == [] {
      assert a + b == b;
    } else {
      CleanOfConcat(a[1..], b);
      assert (a + b)[1..] == a[1..] + b;
    }
  }

  lemma {:induction false} LinesOfConcat(a: seq<EnvVar>, b: seq<EnvVar>)
    ensures LinesOf(a + b) == LinesOf(a) + LinesOf(b)
  {
    if a == [] {
      assert a + b == b;
    } else {
      LinesOfConcat(a[1..], b);
      assert (a + b)[1..] == a[1..] + b;
    }
  }

  lemma NothingPrinted(vars: seq<EnvVar>)
    ensures Print(vars) == "" <==> Clean(vars) == []
  {
    JoinLength(Clean(vars));
  }

  // Lists print one after the other, with a newline between what they print.
  lemma PrintOfConcat(a: seq<EnvVar>, b: seq<EnvVar>)
    ensures Print(a + b) ==
            if Print(a) == "" then Print(b)
            else if Print(b) == "" then Print(a)
            else Print(a) + ['\n'] + Print(b)
  {
    CleanOfConcat(a, b);
    LinesOfConcat(Clean(a), Clean(b));
    NothingPrinted(a);
    NothingPrinted(b);
    if Clean(a) == [] {
      assert Clean(a + b) == Clean(b);
    } else if Clean(b) == [] {
      assert Clean(a + b) == Clean(a);
    } else {
      JoinOfConcat(LinesOf(Clean(a)), LinesOf(Clean(b)));
    }
  }

  // ---------------------------------------------------------------- print after parse

  function Normal(sp: Spaces, text: string): string { Print(Parse(sp, text)) }

  // No printed key starts with '#' or with the reader's white space.
  predicate KeysSurvive(sp: Spaces, vars: seq<EnvVar>) {
    !AnyBadKey(sp, Clean(vars))
  }

  // Reading a text, printing it, and doing both again changes nothing more exactly when the
  // printed keys survive a second reading.
  lemma PrintAfterParse(sp: Spaces, text: string)
    requires Usual(sp)
    ensures Normal(sp, Normal(sp, text)) == Normal(sp, text) <==> KeysSurvive(sp, Parse(sp, text))
  {
    var p := Parse(sp, text);
    var c := Clean(p);
    ParseShape(sp, text);
    ParseOfPrint(sp, p);
    CleanStaysOneLine(p);
    CleanKeeps(p);
    if KeysSurvive(sp, p) {
      CleanValues(sp, p);
      ParseLinesOf(sp, c);
      CleanShrinks(c);
    } else {
      var r := ParseLines(sp, LinesOf(c));
      ParseLinesShrink(sp, c);
      CleanShrinks(r);
      JoinLength(c);
      JoinLength(Clean(r));
    }
  }

  lemma {:induction false} CleanValues(sp: Spaces, vars: seq<EnvVar>)
    requires AllShaped(sp, vars)
    ensures forall k :: 0 <= k < |Clean(vars)| ==> var v := Clean(vars)[k]; v.value != "" ==> !sp(v.value[|v.value| - 1])
  {
    if vars != [] {
      CleanValues(sp, vars[1..]);
    }
  }

  lemma {:induction false} BrowserKeysSurvive(vars: seq<EnvVar>)
    requires AllShaped(JsSpace, vars)
    ensures KeysSurvive(JsSpace, vars)
  {
    if vars != [] {
      BrowserKeysSurvive(vars[1..]);
      var v := EnvVar(Trim(JsSpace, vars[0].key), vars[0].value);
      assert EntryShaped(JsSpace, vars[0]);
      TrimEnds(JsSpace, vars[0].key);
      assert !BadKey(JsSpace, v);
      assert forall k :: 0 <= k < |Clean(vars[1..])| ==> !BadKey(JsSpace, Clean(vars[1..])[k]);
    }
  }

  // With the browser's own parser, that is every text.
  lemma BrowserIsIdempotent(text: string)
    ensures Normal(JsSpace, Normal(JsSpace, text)) == Normal(JsSpace, text)
  {
    ParseShape(JsSpace, text);
    BrowserKeysSurvive(Parse(JsSpace, text));
    PrintAfterParse(JsSpace, text);
  }

  lemma SingleLine(sp: Spaces, line: string)
    requires Lacks(line, '\n')
    ensures Parse(sp, line) == if ParseLine(sp, line).Some? then [ParseLine(sp, line).value] else []
  {
    assert IndexOf(line, '\n') == |line|;
    assert Split(line) == [line];
    assert [line][1..] == [];
    assert ParseLines(sp, [line][1..]) == [];
    assert [line][0] == line;
  }

  lemma MarkedKeyPrints()
    ensures Print([EnvVar("\U{FEFF}#K", "v")]) == "#K=v"
  {
    var key := "\U{FEFF}#K";
    assert key[1..] == "#K";
    assert TrimLeft(JsSpace, key) == TrimLeft(JsSpace, "#K") == "#K";
    assert Trim(JsSpace, key) == "#K";
    var v := EnvVar(key, "v");
    assert [v][1..] == [] && [v][0] == v;
    assert Clean([v]) == [EnvVar("#K", "v")];
    assert LinesOf([EnvVar("#K", "v")]) == ["#K" + "=" + "v"];
  }

  // With the server's parser it is not: a key that starts with a byte order mark and '#' is a
  // variable when first read and a comment when read again.
  lemma ServerIsNotIdempotent()
    ensures var text := "\U{FEFF}#K=v";
            Normal(GoSpace, text) == "#K=v" && Normal(GoSpace, Normal(GoSpace, text)) == ""
  {
    var v := EnvVar("\U{FEFF}#K", "v");
    assert LineOf(v) == "\U{FEFF}#K=v";
    MarkedKeyReads();
    SingleLine(GoSpace, LineOf(v));
    MarkedKeyPrints();
    CommentReads();
    SingleLine(GoSpace, "#K=v");
    assert Print([]) == "";
  }

  lemma MarkedKeyReads()
    ensures ParseLine(GoSpace, "\U{FEFF}#K=v") == Some(EnvVar("\U{FEFF}#K", "v"))
  {
    var l := "\U{FEFF}#K=v";
    TrimOfTrimmed(GoSpace, l);
    assert l == "\U{FEFF}#K" + ['='] + "v";
    IndexOfAt("\U{FEFF}#K", '=', "v");
    assert l[..3] == "\U{FEFF}#K" && l[4..] == "v";
  }

  lemma CommentReads()
    ensures ParseLine(GoSpace, "#K=v").None?
  {
    TrimOfTrimmed(GoSpace, "#K=v");
  }
}
