/** The project slug: the Go function over the UTF-8 bytes of a name and its JavaScript port over
    the UTF-16 code units of the same name. */
module Slug {

  type Codes = seq<int>

  const DASH := 45

  predicate IsLower(c: int) { 97 <= c <= 122 }
  predicate IsUpper(c: int) { 65 <= c <= 90 }
  predicate IsDigit(c: int) { 48 <= c <= 57 }
  predicate Alnum(c: int) { IsLower(c) || IsUpper(c) || IsDigit(c) }

  function Lower(c: int): int { if IsUpper(c) then c + 32 else c }

  // ---------------------------------------------------------------- the two loops

  function Push(slug: Codes, c: int): Codes {
    if Alnum(c) then slug + [Lower(c)]
    else if slug != [] && slug[|slug| - 1] != DASH then slug + [DASH]
    else slug
  }

  function Collapse(cs: Codes): Codes {
    if cs == [] then [] else Push(Collapse(cs[..|cs| - 1]), cs[|cs| - 1])
  }

  function TrimDashes(s: Codes): Codes {
    if s != [] && s[|s| - 1] == DASH then TrimDashes(s[..|s| - 1]) else s
  }

  function SlugOf(cs: Codes): Codes {
    TrimDashes(Collapse(cs))
  }

  method SafeSlugGo(name: Codes) returns (slug: Codes)
    ensures slug == SlugOf(name)
  {
    slug := [];
    for i := 0 to |name|
      invariant slug == Collapse(name[..i])
    {
      var c := name[i];
      assert name[..i + 1][..i] == name[..i];
      if 97 <= c <= 122 {
        slug := slug + [c];
      } else if 65 <= c <= 90 {
        slug := slug + [c + 32];
      } else if 48 <= c <= 57 {
        slug := slug + [c];
      } else if |slug| > 0 && slug[|slug| - 1] != DASH {
        slug := slug + [DASH];
      }
    }
    assert name[..|name|] == name;
    while |slug| > 0 && slug[|slug| - 1] == DASH
      invariant TrimDashes(slug) == SlugOf(name)
    {
      slug := slug[..|slug| - 1];
    }
  }

  method SafeSlugJs(name: Codes) returns (slug: Codes)
    ensures slug == SlugOf(name)
  {
    slug := [];
    var i := 0;
    while i < |name|
      invariant 0 <= i <= |name| && slug == Collapse(name[..i])
    {
      var c := name[i];
      assert name[..i + 1][..i] == name[..i];
      if (97 <= c <= 122) || (48 <= c <= 57) {
        slug := slug + [c];
      } else if 65 <= c <= 90 {
        slug := slug + [c + 32];
      } else if |slug| > 0 && slug[|slug| - 1] != DASH {
        slug := slug + [DASH];
      }
      i := i + 1;
    }
    assert name[..|name|] == name;
    while slug != [] && slug[|slug| - 1] == DASH
      invariant TrimDashes(slug) == SlugOf(name)
      decreases |slug|
    {
      slug := slug[..|slug| - 1];
    }
  }

  // ---------------------------------------------------------------- what a slug is

  // The maximal alphanumeric runs of a name, in lower case.
  function Words(cs: Codes): seq<Codes> {
    if cs == [] then []
    else
      var n := |cs| - 1;
      Extend(Words(cs[..n]), n > 0 && Alnum(cs[n - 1]), cs[n])
  }

  // One more character, within a run or not.
  function Extend(ws: seq<Codes>, within: bool, c: int): seq<Codes> {
    if !Alnum(c) then ws
    else if within && ws != [] then ws[|ws| - 1 := ws[|ws| - 1] + [Lower(c)]]
    else ws + [[Lower(c)]]
  }

  function Joined(ws: seq<Codes>): Codes {
    if ws == [] then []
    else if |ws| == 1 then ws[0]
    else Joined(ws[..|ws| - 1]) + [DASH] + ws[|ws| - 1]
  }

  predicate WordsOk(ws: seq<Codes>) {
    forall k :: 0 <= k < |ws| ==> ws[k] != [] && forall i :: 0 <= i < |ws[k]| ==> IsLower(ws[k][i]) || IsDigit(ws[k][i])
  }

  lemma JoinedEnd(ws: seq<Codes>)
    requires WordsOk(ws) && ws != []
    ensures Joined(ws) != [] && Joined(ws)[|Joined(ws)| - 1] != DASH
  {
    var w := ws[|ws| - 1];
    assert w[|w| - 1] != DASH;
  }

  lemma JoinedExtends(ws: seq<Codes>, c: int)
    requires ws != []
    ensures Joined(ws[|ws| - 1 := ws[|ws| - 1] + [c]]) == Joined(ws) + [c]
  {
    var vs := ws[|ws| - 1 := ws[|ws| - 1] + [c]];
    if |ws| > 1 {
      assert vs[..|ws| - 1] == ws[..|ws| - 1];
      var front := Joined(ws[..|ws| - 1]) + [DASH];
      assert front + (ws[|ws| - 1] + [c]) == front + ws[|ws| - 1] + [c];
    }
  }

  // The loop has the words so far, joined by single dashes, and a dash more when it is between words.
  predicate CollapsedToWords(cs: Codes) {
    var ws := Words(cs);
    && WordsOk(ws)
    && (cs != [] && Alnum(cs[|cs| - 1]) ==> ws != [])
    && Collapse(cs) == Joined(ws) + if ws != [] && !Alnum(cs[|cs| - 1]) then [DASH] else []
  }

  lemma WordGrows(cs: Codes)
    requires |cs| > 1 && Alnum(cs[|cs| - 1]) && Alnum(cs[|cs| - 2]) && CollapsedToWords(cs[..|cs| - 1])
    ensures CollapsedToWords(cs)
  {
    var n := |cs| - 1;
    assert cs[..n][n - 1] == cs[n - 1];
    JoinedExtends(Words(cs[..n]), Lower(cs[n]));
  }

  lemma WordBegins(cs: Codes)
    requires cs != [] && Alnum(cs[|cs| - 1]) && (|cs| > 1 ==> !Alnum(cs[|cs| - 2])) && CollapsedToWords(cs[..|cs| - 1])
    ensures CollapsedToWords(cs)
  {
    var n := |cs| - 1;
    var ws, w := Words(cs[..n]), [Lower(cs[n])];
    assert Words(cs) == ws + [w];
    assert (ws + [w])[..|ws|] == ws;
    assert n > 0 ==> cs[..n][n - 1] == cs[n - 1];
    assert Joined(ws + [w]) == if ws == [] then w else Joined(ws) + [DASH] + w;
  }

  lemma WordEnds(cs: Codes)
    requires cs != [] && !Alnum(cs[|cs| - 1]) && CollapsedToWords(cs[..|cs| - 1])
    ensures CollapsedToWords(cs)
  {
    var ws := Words(cs[..|cs| - 1]);
    if ws != [] {
      JoinedEnd(ws);
    }
  }

  lemma {:induction false} CollapseIsWords(cs: Codes)
    ensures CollapsedToWords(cs)
  {
    if cs != [] {
      CollapseIsWords(cs[..|cs| - 1]);
      if !Alnum(cs[|cs| - 1]) {
        WordEnds(cs);
      } else if |cs| > 1 && Alnum(cs[|cs| - 2]) {
        WordGrows(cs);
      } else {
        WordBegins(cs);
      }
    }
  }

  // A slug is the name's lower-case words joined by single dashes.
  lemma SlugIsJoinedWords(cs: Codes)
    ensures SlugOf(cs) == Joined(Words(cs))
  {
    CollapseIsWords(cs);
    if Words(cs) != [] {
      JoinedEnd(Words(cs));
      var j := Joined(Words(cs));
      assert (j + [DASH])[..|j|] == j;
    }
  }

  // The letters and digits of a name, letters in lower case.
  function Letters(cs: Codes): Codes {
    if cs == [] then []
    else
      var c := cs[|cs| - 1];
      Letters(cs[..|cs| - 1])
      + if 'a' as int <= c <= 'z' as int || '0' as int <= c <= '9' as int then [c]
        else if 'A' as int <= c <= 'Z' as int then [c + 32]
        else []
  }

  function NoDashes(s: Codes): Codes {
    if s == [] then [] else NoDashes(s[..|s| - 1]) + if s[|s| - 1] == '-' as int then [] else [s[|s| - 1]]
  }

  lemma NoDashesSnoc(s: Codes, c: int)
    ensures NoDashes(s + [c]) == NoDashes(s) + if c == '-' as int then [] else [c]
  {
    assert (s + [c])[..|s|] == s;
  }

  lemma {:induction false} CollapseKeepsLetters(cs: Codes)
    ensures NoDashes(Collapse(cs)) == Letters(cs)
  {
    if cs != [] {
      var init, c := cs[..|cs| - 1], cs[|cs| - 1];
      CollapseKeepsLetters(init);
      NoDashesSnoc(Collapse(init), Lower(c));
      NoDashesSnoc(Collapse(init), DASH);
    }
  }

  lemma {:induction false} TrimKeepsLetters(s: Codes)
    ensures NoDashes(TrimDashes(s)) == NoDashes(s)
  {
    if s != [] && s[|s| - 1] == DASH {
      TrimKeepsLetters(s[..|s| - 1]);
    }
  }

  // A slug loses no letter and no digit, keeps their order and invents none.
  lemma SlugKeepsLetters(cs: Codes)
    ensures NoDashes(SlugOf(cs)) == Letters(cs)
  {
    CollapseKeepsLetters(cs);
    TrimKeepsLetters(Collapse(cs));
  }

  predicate LetterOrDigit(c: int) {
    'a' as int <= c <= 'z' as int || 'A' as int <= c <= 'Z' as int || '0' as int <= c <= '9' as int
  }

  lemma ExtendOfConcat(ws: seq<Codes>, vs: seq<Codes>, within: bool, c: int)
    requires within ==> vs != []
    ensures Extend(ws + vs, within, c) == ws + Extend(vs, within, c)
  {
  }

  lemma {:induction false} WordsOfSeparated(a: Codes, c: int, b: Codes)
    requires !LetterOrDigit(c)
    ensures Words(a + [c] + b) == Words(a) + Words(b)
  {
    var cs := a + [c] + b;
    var n := |cs| - 1;
    if b == [] {
      assert cs[..n] == a && cs[n] == c;
    } else {
      var init, d := b[..|b| - 1], b[|b| - 1];
      var within := init != [] && Alnum(init[|init| - 1]);
      WordsOfSeparated(a, c, init);
      CollapseIsWords(init);
      assert cs[..n] == a + [c] + init && cs[n] == d;
      assert (n > 0 && Alnum(cs[n - 1])) == within;
      ExtendOfConcat(Words(a), Words(init), within, d);
      assert Words(b) == Extend(Words(init), within, d);
    }
  }

  lemma {:induction false} JoinedOfConcat(ws: seq<Codes>, vs: seq<Codes>)
    requires ws != [] && vs != []
    ensures Joined(ws + vs) == Joined(ws) + [DASH] + Joined(vs)
  {
    var n := |vs| - 1;
    assert (ws + vs)[..|ws + vs| - 1] == ws + vs[..n];
    if n == 0 {
      assert ws + vs[..0] == ws;
    } else {
      JoinedOfConcat(ws, vs[..n]);
    }
  }

  // Anything but a letter or digit separates: the slugs of the two sides, with one dash between
  // them if neither is empty.
  lemma SlugOfSeparated(a: Codes, c: int, b: Codes)
    requires !LetterOrDigit(c)
    ensures SlugOf(a + [c] + b) ==
            if SlugOf(a) == [] then SlugOf(b)
            else if SlugOf(b) == [] then SlugOf(a)
            else SlugOf(a) + ['-' as int] + SlugOf(b)
  {
    WordsOfSeparated(a, c, b);
    SlugIsJoinedWords(a);
    SlugIsJoinedWords(b);
    SlugIsJoinedWords(a + [c] + b);
    CollapseIsWords(a);
    CollapseIsWords(b);
    if Words(a) == [] {
      assert Words(a) + Words(b) == Words(b);
    } else if Words(b) == [] {
      JoinedEnd(Words(a));
      assert Words(a) + Words(b) == Words(a);
    } else {
      JoinedEnd(Words(a));
      JoinedEnd(Words(b));
      JoinedOfConcat(Words(a), Words(b));
    }
  }

  // And letters and digits alone are only put in lower case.
  lemma {:induction false} SlugOfWord(cs: Codes)
    requires forall k :: 0 <= k < |cs| ==> LetterOrDigit(cs[k])
    ensures SlugOf(cs) == Collapse(cs) == Letters(cs)
  {
    if cs != [] {
      SlugOfWord(cs[..|cs| - 1]);
    }
  }

  // Only a-z, 0-9 and single inner dashes.
  ghost predicate SlugShaped(s: Codes) {
    && (forall k :: 0 <= k < |s| ==> IsLower(s[k]) || IsDigit(s[k]) || s[k] == DASH)
    && (s != [] ==> s[0] != DASH && s[|s| - 1] != DASH)
    && (forall j, k :: 0 <= j < k < |s| && k == j + 1 ==> s[j] != DASH || s[k] != DASH)
  }

  lemma {:induction false} JoinedIsShaped(ws: seq<Codes>)
    requires WordsOk(ws)
    ensures SlugShaped(Joined(ws))
  {
    if |ws| > 1 {
      JoinedIsShaped(ws[..|ws| - 1]);
      JoinedEnd(ws[..|ws| - 1]);
    }
  }

  // A slug without its last character is one again, but for a dash it may now end in.
  ghost predicate SlugPrefix(s: Codes) {
    && (forall k :: 0 <= k < |s| ==> IsLower(s[k]) || IsDigit(s[k]) || s[k] == DASH)
    && (s != [] ==> s[0] != DASH)
    && (forall j, k :: 0 <= j < k < |s| && k == j + 1 ==> s[j] != DASH || s[k] != DASH)
  }

  lemma ShorterSlugPrefix(s: Codes)
    requires s != [] && SlugPrefix(s)
    ensures SlugPrefix(s[..|s| - 1])
    ensures Push(s[..|s| - 1], s[|s| - 1]) == s
  {
    var init := s[..|s| - 1];
    assert forall k :: 0 <= k < |init| ==> init[k] == s[k];
    assert s == init + [s[|s| - 1]];
  }

  lemma {:induction false} ShapedIsFixed(s: Codes)
    requires SlugPrefix(s)
    ensures Collapse(s) == s
  {
    if s != [] {
      ShorterSlugPrefix(s);
      ShapedIsFixed(s[..|s| - 1]);
    }
  }

  lemma SlugShapeAndIdempotence(cs: Codes)
    ensures SlugShaped(SlugOf(cs))
    ensures SlugOf(SlugOf(cs)) == SlugOf(cs)
  {
    SlugIsJoinedWords(cs);
    CollapseIsWords(cs);
    JoinedIsShaped(Words(cs));
    ShapedIsFixed(SlugOf(cs));
  }

  // ---------------------------------------------------------------- one name, two encodings

  // A Unicode scalar value.
  type Scalar = c: int | 0 <= c < 0xD800 || 0xE000 <= c < 0x110000

  function Utf8(c: Scalar): Codes {
    if c < 0x80 then [c]
    else if c < 0x800 then [0xC0 + c / 64, 0x80 + c % 64]
    else if c < 0x10000 then [0xE0 + c / 4096, 0x80 + c / 64 % 64, 0x80 + c % 64]
    else [0xF0 + c / 262144, 0x80 + c / 4096 % 64, 0x80 + c / 64 % 64, 0x80 + c % 64]
  }

  function Utf16(c: Scalar): Codes {
    if c < 0x10000 then [c]
    else [0xD800 + (c - 0x10000) / 1024, 0xDC00 + (c - 0x10000) % 1024]
  }

  function EncodeUtf8(name: seq<Scalar>): Codes {
    if name == [] then [] else EncodeUtf8(name[..|name| - 1]) + Utf8(name[|name| - 1])
  }

  function EncodeUtf16(name: seq<Scalar>): Codes {
    if name == [] then [] else EncodeUtf16(name[..|name| - 1]) + Utf16(name[|name| - 1])
  }

  // Any non-empty run of codes outside ASCII has the effect of one of them.
  lemma {:induction false} CollapseRun(cs: Codes, run: Codes)
    requires run != [] && forall k :: 0 <= k < |run| ==> run[k] >= 0x80
    ensures Collapse(cs + run) == Push(Collapse(cs), 0x80)
  {
    var n := |run| - 1;
    assert (cs + run)[..|cs| + n] == cs + run[..n];
    if n > 0 {
      CollapseRun(cs, run[..n]);
    } else {
      assert cs + run[..n] == cs;
    }
  }

  lemma CollapseOne(cs: Codes, c: int)
    ensures Collapse(cs + [c]) == Push(Collapse(cs), c)
  {
    assert (cs + [c])[..|cs|] == cs;
  }

  lemma HighUnits(c: Scalar)
    requires c >= 0x80
    ensures Utf8(c) != [] && forall k :: 0 <= k < |Utf8(c)| ==> Utf8(c)[k] >= 0x80
    ensures Utf16(c) != [] && forall k :: 0 <= k < |Utf16(c)| ==> Utf16(c)[k] >= 0x80
  {
  }

  lemma {:induction false} EncodingsCollapseAlike(name: seq<Scalar>)
    ensures Collapse(EncodeUtf8(name)) == Collapse(EncodeUtf16(name))
  {
    if name != [] {
      var init, c := name[..|name| - 1], name[|name| - 1];
      EncodingsCollapseAlike(init);
      if c < 0x80 {
        CollapseOne(EncodeUtf8(init), c);
        CollapseOne(EncodeUtf16(init), c);
      } else {
        HighUnits(c);
        CollapseRun(EncodeUtf8(init), Utf8(c));
        CollapseRun(EncodeUtf16(init), Utf16(c));
      }
    }
  }

  // The server and the browser compute the same slug for every name.
  lemma GoAndJsAgree(name: seq<Scalar>)
    ensures SlugOf(EncodeUtf8(name)) == SlugOf(EncodeUtf16(name))
  {
    EncodingsCollapseAlike(name);
  }
}
