/** The Link header of a paged GitHub answer: cutting it into parts at the commas outside angle
    brackets, finding the part for a relation, and taking the URL out of it. */
module LinkHeader {

  // ---------------------------------------------------------------- cutting at bare commas

  // Whether the scan is inside angle brackets after one more character.
  function Next(inside: bool, c: char): bool {
    c == '<' || (inside && c != '>')
  }

  function Inside(s: string, from: bool): bool {
    if s == "" then from else Inside(s[1..], Next(from, s[0]))
  }

  // The first comma the scan meets outside brackets, or the end.
  function Cut(s: string, from: bool): (i: nat)
    ensures i <= |s|
  {
    if s == "" || (s[0] == ',' && !from) then 0 else 1 + Cut(s[1..], Next(from, s[0]))
  }

  function Parts(s: string): seq<string>
    decreases |s|
  {
    if s == "" then []
    else
      var i := Cut(s, false);
      if i == |s| then [s] else [s[..i]] + Parts(s[i + 1..])
  }

  // The loop has collected `parts`, begun the current one at `start` and come to `i`.
  predicate Scanned(s: string, parts: seq<string>, start: nat, i: nat, inBracket: bool)
    requires start <= i <= |s|
  {
    parts + Parts(s[start..]) == Parts(s) && Cut(s[start..], false) == i - start + Cut(s[i..], inBracket)
  }

  lemma ScanCharacter(s: string, parts: seq<string>, start: nat, i: nat, inBracket: bool)
    requires start <= i < |s| && Scanned(s, parts, start, i, inBracket) && (s[i] != ',' || inBracket)
    ensures Scanned(s, parts, start, i + 1, Next(inBracket, s[i]))
  {
    assert s[i..][1..] == s[i + 1..];
  }

  lemma PartsCut(s: string, i: nat)
    requires i == Cut(s, false) < |s|
    ensures Parts(s) == [s[..i]] + Parts(s[i + 1..])
  {
  }

  lemma PartsFrom(s: string, start: nat, i: nat)
    requires start <= i < |s| && Cut(s[start..], false) == i - start
    ensures Parts(s[start..]) == [s[start..i]] + Parts(s[i + 1..])
  {
    var rest, n := s[start..], i - start;
    PartsCut(rest, n);
    assert rest[..n] == s[start..i] && rest[n + 1..] == s[i + 1..];
  }

  lemma ScanBareComma(s: string, parts: seq<string>, start: nat, i: nat)
    requires start <= i < |s| && Scanned(s, parts, start, i, false) && s[i] == ','
    ensures Scanned(s, parts + [s[start..i]], i + 1, i + 1, false)
  {
    assert Cut(s[i..], false) == 0;
    PartsFrom(s, start, i);
    assert parts + ([s[start..i]] + Parts(s[i + 1..])) == parts + [s[start..i]] + Parts(s[i + 1..]);
  }

  lemma ScanEnd(s: string, parts: seq<string>, start: nat, inBracket: bool)
    requires start <= |s| && Scanned(s, parts, start, |s|, inBracket)
    ensures Parts(s) == if start < |s| then parts + [s[start..]] else parts
  {
    PartsEnd(s[start..]);
  }

  lemma PartsEnd(rest: string)
    requires Cut(rest, false) == |rest|
    ensures Parts(rest) == if rest == "" then [] else [rest]
  {
  }

  method SplitLink(s: string) returns (parts: seq<string>)
    ensures parts == Parts(s)
  {
    parts := [];
    var start := 0;
    var inBracket := false;
    for i := 0 to |s|
      invariant start <= i && Scanned(s, parts, start, i, inBracket)
    {
      if s[i] == '<' {
        ScanCharacter(s, parts, start, i, inBracket);
        inBracket := true;
      } else if s[i] == '>' {
        ScanCharacter(s, parts, start, i, inBracket);
        inBracket := false;
      } else if s[i] == ',' && !inBracket {
        ScanBareComma(s, parts, start, i);
        parts := parts + [s[start..i]];
        start := i + 1;
      } else {
        ScanCharacter(s, parts, start, i, inBracket);
      }
    }
    ScanEnd(s, parts, start, inBracket);
    if start < |s| {
      parts := parts + [s[start..]];
    }
  }

  function Join(parts: seq<string>): string {
    if parts == [] then ""
    else if |parts| == 1 then parts[0]
    else parts[0] + "," + Join(parts[1..])
  }

  lemma {:induction false} CutOfSum(a: string, b: string, from: bool)
    requires Cut(a, from) == |a|
    ensures Cut(a + b, from) == |a| + Cut(b, Inside(a, from))
  {
    if a == "" {
      assert a + b == b;
    } else {
      assert (a + b)[1..] == a[1..] + b;
      CutOfSum(a[1..], b, Next(from, a[0]));
    }
  }

  lemma {:induction false} InsideOfSum(a: string, b: string, from: bool)
    ensures Inside(a + b, from) == Inside(b, Inside(a, from))
  {
    if a == "" {
      assert a + b == b;
    } else {
      assert (a + b)[1..] == a[1..] + b;
      InsideOfSum(a[1..], b, Next(from, a[0]));
    }
  }

  lemma {:induction false} CutIs(s: string, from: bool)
    requires Cut(s, from) < |s|
    ensures s[Cut(s, from)] == ',' && !Inside(s[..Cut(s, from)], from)
  {
    if !(s[0] == ',' && !from) {
      CutIs(s[1..], Next(from, s[0]));
      assert s[..Cut(s, from)][1..] == s[1..][..Cut(s, from) - 1];
    }
  }

  lemma {:induction false} UncutEnd(init: string, from: bool)
    requires Cut(init + [','], from) == |init| + 1
    ensures Inside(init, from)
  {
    var s := init + [','];
    if init != "" {
      assert s[1..] == init[1..] + [','];
      UncutEnd(init[1..], Next(from, init[0]));
    }
  }

  predicate EndsInBareComma(s: string) {
    s != "" && s[|s| - 1] == ',' && !Inside(s[..|s| - 1], false)
  }

  lemma BareCommaAfterCut(a: string, rest: string)
    requires !Inside(a, false) && rest != ""
    ensures EndsInBareComma(a + [','] + rest) <==> EndsInBareComma(rest)
  {
    var start := a + [','];
    var s := start + rest;
    var init := rest[..|rest| - 1];
    assert s[..|s| - 1] == start + init;
    assert [','][1..] == "";
    InsideOfSum(a, [','], false);
    InsideOfSum(start, init, false);
  }

  lemma NoBareCommaAtEnd(s: string)
    requires Cut(s, false) == |s|
    ensures !EndsInBareComma(s)
  {
    if s != "" && s[|s| - 1] == ',' {
      assert s == s[..|s| - 1] + [','];
      UncutEnd(s[..|s| - 1], false);
    }
  }

  lemma JoinAfterCut(a: string, rest: string)
    ensures Join([a] + Parts(rest)) == if rest == "" then a else a + "," + Join(Parts(rest))
  {
    assert ([a] + Parts(rest))[1..] == Parts(rest);
  }

  lemma BareCommaLast(a: string)
    requires !Inside(a, false)
    ensures EndsInBareComma(a + [','])
  {
    assert (a + [','])[..|a|] == a;
  }

  // Joining the parts with commas gives the header back exactly when it does not end in a comma
  // outside brackets; when it does, that comma is all that is lost.
  lemma {:induction false} PartsJoin(s: string)
    ensures s == if EndsInBareComma(s) then Join(Parts(s)) + "," else Join(Parts(s))
    decreases |s|
  {
    if Cut(s, false) == |s| {
      NoBareCommaAtEnd(s);
    } else {
      CutIs(s, false);
      var a, rest := s[..Cut(s, false)], s[Cut(s, false) + 1..];
      assert s == a + [','] + rest;
      JoinAfterCut(a, rest);
      if rest == "" {
        assert s == a + [','];
        BareCommaLast(a);
      } else {
        BareCommaAfterCut(a, rest);
        PartsJoin(rest);
      }
    }
  }

  // No comma outside brackets, and brackets closed at the end.
  predicate Whole(p: string) {
    Cut(p, false) == |p| && !Inside(p, false)
  }

  lemma PartsAfterWhole(p: string, rest: string)
    requires Whole(p)
    ensures Parts(p + ([','] + rest)) == [p] + Parts(rest)
  {
    var s := p + ([','] + rest);
    CutOfSum(p, [','] + rest, false);
    assert s[..|p|] == p && s[|p| + 1..] == rest;
  }

  lemma JoinCons(p: string, parts: seq<string>)
    requires parts != []
    ensures Join([p] + parts) == p + ([','] + Join(parts))
  {
    assert ([p] + parts)[1..] == parts;
  }

  predicate AllWhole(parts: seq<string>) {
    forall k :: 0 <= k < |parts| ==> parts[k] != "" && Whole(parts[k])
  }

  // Cutting undoes joining.
  lemma {:induction false} PartsOfJoin(parts: seq<string>)
    requires AllWhole(parts)
    ensures Parts(Join(parts)) == parts
  {
    if |parts| == 1 {
      PartsEnd(parts[0]);
    } else if parts != [] {
      PartsOfJoin(parts[1..]);
      JoinCons(parts[0], parts[1..]);
      PartsAfterWhole(parts[0], Join(parts[1..]));
      assert parts == [parts[0]] + parts[1..];
    }
  }

  // The '<' at k is still open at position i.
  predicate OpenSince(s: string, k: nat, i: nat) {
    k < i <= |s| && s[k] == '<' && forall m :: k < m < i ==> s[m] != '>'
  }

  // Position i is between a '<' and the next '>'.
  ghost predicate Bracketed(s: string, i: nat) {
    exists k :: OpenSince(s, k, i)
  }

  lemma InsideSnoc(s: string, c: char, from: bool)
    ensures Inside(s + [c], from) == Next(Inside(s, from), c)
  {
    InsideOfSum(s, [c], from);
    assert [c][1..] == "";
  }

  lemma BracketedSnoc(s: string, c: char)
    ensures Bracketed(s + [c], |s| + 1) <==> Next(Bracketed(s, |s|), c)
  {
    var u := s + [c];
    var n := |u|;
    if c == '<' {
      assert OpenSince(u, |s|, n);
    } else if c == '>' {
      assert u[|s|] == '>';
      assert !Bracketed(u, n);
    } else {
      if Bracketed(u, n) {
        var k: nat :| OpenSince(u, k, n);
        OpenSinceSnoc(s, c, k);
      }
      if Bracketed(s, |s|) {
        var k: nat :| OpenSince(s, k, |s|);
        OpenSinceSnoc(s, c, k);
        assert OpenSince(u, k, n);
      }
    }
  }

  lemma OpenSinceSnoc(s: string, c: char, k: nat)
    requires c != '<' && c != '>'
    ensures OpenSince(s + [c], k, |s| + 1) <==> OpenSince(s, k, |s|)
  {
    var u := s + [c];
    assert forall m :: 0 <= m < |s| ==> u[m] == s[m];
  }

  lemma {:induction false} InsideIsBracketed(s: string)
    ensures Inside(s, false) <==> Bracketed(s, |s|)
  {
    if s != "" {
      var init, c := s[..|s| - 1], s[|s| - 1];
      assert s == init + [c];
      InsideIsBracketed(init);
      InsideSnoc(init, c, false);
      BracketedSnoc(init, c);
    }
  }

  lemma {:induction false} CommasBeforeCut(s: string, i: nat, from: bool)
    requires i < Cut(s, from) && s[i] == ','
    ensures Inside(s[..i], from)
  {
    if i > 0 {
      CommasBeforeCut(s[1..], i - 1, Next(from, s[0]));
      assert s[..i][1..] == s[1..][..i - 1];
    }
  }

  // A comma within a part is within angle brackets; so the header is cut at each bare comma.
  lemma {:induction false} PartsHaveNoBareComma(s: string, p: nat, i: nat)
    requires p < |Parts(s)| && i < |Parts(s)[p]| && Parts(s)[p][i] == ','
    ensures Bracketed(Parts(s)[p], i)
    decreases |s|
  {
    var c := Cut(s, false);
    if p > 0 {
      PartsHaveNoBareComma(s[c + 1..], p - 1, i);
    } else {
      var part := Parts(s)[0];
      assert part == s[..c];
      CommasBeforeCut(s, i, false);
      assert s[..i] == part[..i];
      InsideIsBracketed(part[..i]);
      BracketedPrefix(part, i);
    }
  }

  lemma BracketedPrefix(s: string, i: nat)
    requires i <= |s| && Bracketed(s[..i], i)
    ensures Bracketed(s, i)
  {
    var k :| OpenSince(s[..i], k, i);
    assert forall m :: 0 <= m < i ==> s[..i][m] == s[m];
    assert OpenSince(s, k, i);
  }

  // ---------------------------------------------------------------- the relation of a part

  predicate At(t: string, s: string, i: int) {
    0 <= i <= |s| - |t| && s[i..i + |t|] == t
  }

  predicate Occurs(t: string, s: string) {
    exists i :: 0 <= i <= |s| && At(t, s, i)
  }

  lemma AtIs(t: string, s: string, i: int)
    requires 0 <= i <= |s| - |t|
    ensures At(t, s, i) <==> forall k :: 0 <= k < |t| ==> t[k] == s[i + k]
  {
    if At(t, s, i) {
      forall k | 0 <= k < |t| ensures t[k] == s[i + k] {
        assert t[k] == s[i..i + |t|][k];
      }
    }
  }

  function Target(name: string): string { "rel=\"" + name + "\"" }

  method HasRel(part: string, name: string) returns (found: bool)
    ensures found == Occurs(Target(name), part)
  {
    var target := "rel=\"" + name + "\"";
    var i := 0;
    while i <= |part| - |target|
      invariant 0 <= i && forall k :: 0 <= k < i ==> !At(target, part, k)
    {
      if part[i..i + |target|] == target {
        assert At(target, part, i);
        return true;
      }
      i := i + 1;
    }
    return false;
  }

  predicate Lacks(s: string, c: char) {
    forall k :: 0 <= k < |s| ==> s[k] != c
  }

  lemma OccursWithin(t: string, a: string, s: string, b: string)
    requires Occurs(t, s)
    ensures Occurs(t, a + s + b)
  {
    var i :| 0 <= i <= |s| && At(t, s, i);
    var all := a + s + b;
    assert all[|a| + i..|a| + i + |t|] == s[i..i + |t|];
    assert At(t, all, |a| + i);
  }

  lemma AtLacks(t: string, s: string, i: int, c: char)
    requires At(t, s, i) && Lacks(t, c)
    ensures forall k :: i <= k < i + |t| ==> s[k] != c
  {
    forall k | i <= k < i + |t| ensures s[k] != c {
      assert s[k] == s[i..i + |t|][k - i];
    }
  }

  lemma AtBesides(t: string, a: string, c: char, b: string, i: int)
    requires Lacks(t, c) && t != "" && At(t, a + [c] + b, i)
    ensures Occurs(t, a) || Occurs(t, b)
  {
    var s := a + [c] + b;
    AtLacks(t, s, i, c);
    assert s[|a|] == c;
    if i + |t| <= |a| {
      assert a[i..i + |t|] == s[i..i + |t|];
      assert At(t, a, i);
    } else {
      var j := i - |a| - 1;
      assert b[j..j + |t|] == s[i..i + |t|];
      assert At(t, b, j);
    }
  }

  // An occurrence does not reach across a character it does not have.
  lemma OccursBesides(t: string, a: string, c: char, b: string)
    requires Lacks(t, c) && t != ""
    ensures Occurs(t, a + [c] + b) <==> Occurs(t, a) || Occurs(t, b)
  {
    var s := a + [c] + b;
    if Occurs(t, a) {
      OccursWithin(t, "", a, [c] + b);
      assert "" + a + ([c] + b) == s;
    }
    if Occurs(t, b) {
      OccursWithin(t, a + [c], b, "");
      assert a + [c] + b + "" == s;
    }
    if Occurs(t, s) {
      var i :| 0 <= i <= |s| && At(t, s, i);
      AtBesides(t, a, c, b, i);
    }
  }

  function Parameter(rel: string): string { "; rel=\"" + rel + "\"" }

  lemma QuotesOfParameter(rel: string, k: nat)
    requires Lacks(rel, '"') && k < |Parameter(rel)|
    ensures Parameter(rel)[k] == '"' <==> k == 6 || k == 7 + |rel|
  {
    assert 7 <= k < 7 + |rel| ==> Parameter(rel)[k] == rel[k - 7];
  }

  lemma AtInParameter(name: string, rel: string, i: int)
    requires Lacks(rel, '"') && At(Target(name), Parameter(rel), i)
    ensures i == 2 && |name| == |rel|
  {
    var t, s := Target(name), Parameter(rel);
    AtIs(t, s, i);
    assert t[4] == s[i + 4] == '"';
    assert t[|t| - 1] == s[i + (|t| - 1)] == '"';
    QuotesOfParameter(rel, i + 4);
    QuotesOfParameter(rel, i + |t| - 1);
  }

  // The quotes decide: in a rendered parameter the relation is found exactly when it is its own.
  lemma OccursInParameter(name: string, rel: string)
    requires Lacks(rel, '"')
    ensures Occurs(Target(name), Parameter(rel)) <==> name == rel
  {
    var t, s := Target(name), Parameter(rel);
    if name == rel {
      assert s[2..2 + |t|] == t;
      assert At(t, s, 2);
    }
    if Occurs(t, s) {
      var i :| 0 <= i <= |s| && At(t, s, i);
      AtInParameter(name, rel, i);
      AtIs(t, s, i);
      forall k | 0 <= k < |rel| ensures name[k] == rel[k] {
        assert t[k + 5] == s[i + (k + 5)];
      }
    }
  }

  // ---------------------------------------------------------------- the URL of a part

  function Extract(part: string, i: nat, start: int): string
    requires i <= |part| && -1 <= start <= i
    decreases |part| - i
  {
    if i == |part| then ""
    else if part[i] == '<' then Extract(part, i + 1, i + 1)
    else if part[i] == '>' && start >= 0 then part[start..i]
    else Extract(part, i + 1, start)
  }

  method ExtractURL(part: string) returns (url: string)
    ensures url == Extract(part, 0, -1)
  {
    var start := -1;
    for i := 0 to |part|
      invariant -1 <= start <= i && Extract(part, i, start) == Extract(part, 0, -1)
    {
      if part[i] == '<' {
        start := i + 1;
      } else if part[i] == '>' && start >= 0 {
        return part[start..i];
      }
    }
    return "";
  }

  // No '<' before a '>' ahead of position j.
  predicate NoPairBefore(part: string, j: nat) {
    forall a, b :: 0 <= a < b < j <= |part| && part[a] == '<' ==> part[b] != '>'
  }

  // The first '>' with a '<' before it, and the '<' nearest to it.
  predicate FirstPair(part: string, i: nat, j: nat) {
    && i < j < |part| && part[i] == '<' && part[j] == '>' && NoPairBefore(part, j)
    && forall k :: i < k < j ==> part[k] != '<'
  }

  lemma {:induction false} ExtractFindsFrom(part: string, k: nat, start: int, i: nat, j: nat)
    requires FirstPair(part, i, j) && k <= j && -1 <= start <= k
    requires (start > 0 && part[start - 1] == '<') || start == -1
    requires k > i ==> start == i + 1
    ensures Extract(part, k, start) == part[i + 1..j]
    decreases j - k
  {
    if k < j {
      ExtractFindsFrom(part, k + 1, if part[k] == '<' then k + 1 else start, i, j);
    }
  }

  lemma {:induction false} ExtractNothingFrom(part: string, k: nat, start: int)
    requires NoPairBefore(part, |part|) && k <= |part| && -1 <= start <= k
    requires (start > 0 && part[start - 1] == '<') || start == -1
    ensures Extract(part, k, start) == ""
    decreases |part| - k
  {
    if k < |part| {
      ExtractNothingFrom(part, k + 1, if part[k] == '<' then k + 1 else start);
    }
  }

  // What is extracted lies between the first pair of brackets, and is empty without one.
  lemma ExtractIs(part: string)
    ensures forall i: nat, j: nat :: FirstPair(part, i, j) ==> Extract(part, 0, -1) == part[i + 1..j]
    ensures NoPairBefore(part, |part|) ==> Extract(part, 0, -1) == ""
  {
    forall i: nat, j: nat | FirstPair(part, i, j) ensures Extract(part, 0, -1) == part[i + 1..j] {
      ExtractFindsFrom(part, 0, -1, i, j);
    }
    if NoPairBefore(part, |part|) {
      ExtractNothingFrom(part, 0, -1);
    }
  }

  // ---------------------------------------------------------------- the next page

  function NextOf(parts: seq<string>): string {
    if parts == [] then ""
    else if Occurs(Target("next"), parts[0]) then Extract(parts[0], 0, -1)
    else NextOf(parts[1..])
  }

  method NextPageURL(link: string) returns (url: string)
    ensures url == NextOf(Parts(link))
  {
    if link == "" {
      return "";
    }
    var parts := SplitLink(link);
    for i := 0 to |parts|
      invariant NextOf(parts[i..]) == NextOf(parts)
    {
      assert parts[i..][1..] == parts[i + 1..];
      var found := HasRel(parts[i], "next");
      if found {
        url := ExtractURL(parts[i]);
        return;
      }
    }
    return "";
  }

  datatype Link = Link(url: string, rel: string) {
    // A URL between angle brackets, as section 3 of RFC 8288 has it, and a plain relation name.
    predicate Simple() {
      && Lacks(url, '<') && Lacks(url, '>')
      && Lacks(rel, '"') && Lacks(rel, ',') && Lacks(rel, '<')
    }

    function Text(): string { "<" + url + ">" + Parameter(rel) }

    // What the scan for the next page takes for a "next" link.
    predicate TakenForNext() {
      rel == "next" || Occurs(Target("next"), url)
    }
  }

  function Render(links: seq<Link>): string {
    if links == [] then ""
    else if |links| == 1 then links[0].Text()
    else links[0].Text() + ", " + Render(links[1..])
  }

  // The pieces of a rendered header: all but the first begin with the space after the comma.
  function Pieces(lead: string, links: seq<Link>): seq<string>
    decreases links
  {
    if links == [] then [] else [lead + links[0].Text()] + Pieces(" ", links[1..])
  }

  predicate Lead(lead: string) { lead == "" || lead == " " }

  lemma {:induction false} RenderIsJoin(lead: string, links: seq<Link>)
    requires links != []
    ensures lead + Render(links) == Join(Pieces(lead, links))
    decreases links
  {
    if |links| == 1 {
      assert Pieces(" ", links[1..]) == [];
    } else {
      RenderIsJoin(" ", links[1..]);
      var ps := Pieces(lead, links);
      assert ps[1..] == Pieces(" ", links[1..]);
      assert lead + Render(links) == lead + links[0].Text() + "," + (" " + Render(links[1..]));
    }
  }

  // Runs of characters that leave the scan where it was.
  lemma {:induction false} ScanPast(s: string, inside: bool)
    requires Lacks(s, '<') && if inside then Lacks(s, '>') else Lacks(s, ',')
    ensures Cut(s, inside) == |s| && Inside(s, inside) == inside
  {
    if s != "" {
      ScanPast(s[1..], inside);
    }
  }

  lemma PieceIsWhole(lead: string, l: Link)
    requires Lead(lead) && l.Simple()
    ensures Whole(lead + l.Text())
  {
    var tail := ">" + Parameter(l.rel);
    ScanPast(lead, false);
    ScanPast(l.url, true);
    TailIsWhole(l.rel);
    CutOfSum(l.url, tail, true);
    InsideOfSum(l.url, tail, true);
    var body := l.url + tail;
    var text := "<" + body;
    assert text[1..] == body;
    assert l.Text() == text;
    CutOfSum(lead, text, false);
    InsideOfSum(lead, text, false);
  }

  lemma TailIsWhole(rel: string)
    requires Lacks(rel, ',') && Lacks(rel, '<')
    ensures var tail := ">" + Parameter(rel); Cut(tail, true) == |tail| && !Inside(tail, true)
  {
    var tail := ">" + Parameter(rel);
    ScanPast(tail[1..], false);
  }

  // The part of a link is taken for "next" exactly when its relation is, or its URL spells it.
  lemma PieceHasNext(lead: string, l: Link)
    requires Lead(lead) && l.Simple()
    ensures Occurs(Target("next"), lead + l.Text()) <==> l.TakenForNext()
  {
    var t := Target("next");
    var tail := Parameter(l.rel);
    OccursBesides(t, lead, '<', l.url + ['>'] + tail);
    OccursBesides(t, l.url, '>', tail);
    OccursInParameter("next", l.rel);
    assert lead + ['<'] + (l.url + ['>'] + tail) == lead + l.Text();
  }

  lemma PieceHasUrl(lead: string, l: Link)
    requires Lead(lead) && l.Simple()
    ensures Extract(lead + l.Text(), 0, -1) == l.url
  {
    var p := lead + l.Text();
    var i, j := |lead|, |lead| + 1 + |l.url|;
    assert p == lead + ['<'] + l.url + ['>'] + (Parameter(l.rel));
    assert p[i + 1..j] == l.url;
    assert forall k :: i < k < j ==> p[k] == l.url[k - i - 1];
    assert FirstPair(p, i, j);
    ExtractIs(p);
  }

  function FirstTaken(links: seq<Link>): string {
    if links == [] then "" else if links[0].TakenForNext() then links[0].url else FirstTaken(links[1..])
  }

  predicate AllSimple(links: seq<Link>) {
    forall k :: 0 <= k < |links| ==> links[k].Simple()
  }

  lemma {:induction false} PiecesAreWhole(lead: string, links: seq<Link>)
    requires Lead(lead) && AllSimple(links)
    ensures AllWhole(Pieces(lead, links))
    ensures NextOf(Pieces(lead, links)) == FirstTaken(links)
    decreases links
  {
    if links != [] {
      PiecesAreWhole(" ", links[1..]);
      PieceIsWhole(lead, links[0]);
      PieceHasNext(lead, links[0]);
      PieceHasUrl(lead, links[0]);
      assert Pieces(lead, links)[1..] == Pieces(" ", links[1..]);
    }
  }

  // For every list of links, commas in the URLs or not.
  lemma NextOfRender(links: seq<Link>)
    requires AllSimple(links)
    ensures NextOf(Parts(Render(links))) == FirstTaken(links)
  {
    if links != [] {
      PiecesAreWhole("", links);
      RenderIsJoin("", links);
      assert "" + Render(links) == Render(links);
      PartsOfJoin(Pieces("", links));
    }
  }

  // The URL of the first link whose relation is "next".
  function FirstNext(links: seq<Link>): string {
    if links == [] then "" else if links[0].rel == "next" then links[0].url else FirstNext(links[1..])
  }

  lemma OccurrenceHasQuotes(name: string, s: string)
    requires Occurs(Target(name), s)
    ensures !Lacks(s, '"')
  {
    var t := Target(name);
    var i :| 0 <= i <= |s| && At(t, s, i);
    AtIs(t, s, i);
    assert t[4] == s[i + 4];
  }

  lemma {:induction false} TakenIsNext(links: seq<Link>)
    requires forall k :: 0 <= k < |links| ==> Lacks(links[k].url, '"')
    ensures FirstTaken(links) == FirstNext(links)
  {
    if links != [] {
      if Occurs(Target("next"), links[0].url) {
        OccurrenceHasQuotes("next", links[0].url);
        assert false;
      }
      TakenIsNext(links[1..]);
    }
  }

  lemma NextPageIsTheNextLink(links: seq<Link>)
    requires AllSimple(links) && forall k :: 0 <= k < |links| ==> Lacks(links[k].url, '"')
    ensures NextOf(Parts(Render(links))) == FirstNext(links)
  {
    NextOfRender(links);
    TakenIsNext(links);
  }
}
