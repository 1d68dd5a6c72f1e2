/** Canonical identities: which facts about an item go into its key, how the key is printed, and when
    two keys are equal. */
module MusicIdentity {
  import opened Prelude
  import opened TextOrder

  // ---------------------------------------------------------------- normalised text

  /** What the program takes from Unicode.  `prepare` stands for decomposition, the removal of
      diacritics, the spelling out of ampersands and the removal of a featuring suffix. */
  datatype Alphabet = Alphabet(prepare: string -> string, alnum: char -> bool, lower: char -> string) {
    /** Lower-casing a letter or digit gives something, without spaces, colons or plus signs. */
    ghost predicate Valid() {
      && !alnum(' ') && !alnum(':') && !alnum('+')
      && (forall c :: alnum(c) ==> lower(c) != "" && ' ' !in lower(c) && ':' !in lower(c) && '+' !in lower(c))
    }
  }

  /** The maximal runs of letters and digits, in lower case. */
  function Words(a: Alphabet, s: string): seq<string> {
    if s == "" then []
    else
      var n := |s| - 1;
      var before := Words(a, s[..n]);
      if !a.alnum(s[n]) then before
      else if n > 0 && a.alnum(s[n - 1]) && before != [] then
        before[..|before| - 1] + [before[|before| - 1] + a.lower(s[n])]
      else before + [a.lower(s[n])]
  }

  /** One word of the text: a run of letters and digits that nothing extends on either side. */
  ghost predicate IsRun(a: Alphabet, s: string, i: nat, j: nat) {
    && i < j <= |s| && (forall k :: i <= k < j ==> a.alnum(s[k]))
    && (i > 0 ==> !a.alnum(s[i - 1])) && (j < |s| ==> !a.alnum(s[j]))
  }

  function Lowered(a: Alphabet, s: string): string {
    if s == "" then "" else Lowered(a, s[..|s| - 1]) + a.lower(s[|s| - 1])
  }

  /** Where the words of the text are, from left to right. */
  ghost predicate AreRuns(a: Alphabet, s: string, runs: seq<(nat, nat)>) {
    && (forall n :: 0 <= n < |runs| ==> IsRun(a, s, runs[n].0, runs[n].1))
    && (forall m, n :: 0 <= m < n < |runs| ==> runs[m].1 < runs[n].0)
    && (forall k :: 0 <= k < |s| && a.alnum(s[k]) ==> Covered(runs, k))
  }

  ghost predicate Covered(runs: seq<(nat, nat)>, k: int) {
    exists n :: 0 <= n < |runs| && runs[n].0 <= k < runs[n].1
  }

  /** The word is the run in lower case. */
  ghost predicate Spells(a: Alphabet, s: string, run: (nat, nat), word: string) {
    run.0 <= run.1 <= |s| && word == Lowered(a, s[run.0..run.1])
  }

  /** The words are the maximal runs of letters and digits, all of them, in order and in lower case. */
  lemma {:induction false} WordsAreRuns(a: Alphabet, s: string) returns (runs: seq<(nat, nat)>)
    ensures AreRuns(a, s, runs) && |Words(a, s)| == |runs|
    ensures forall n :: 0 <= n < |runs| ==> Spells(a, s, runs[n], Words(a, s)[n])
  {
    hide Covered, IsRun, Spells;
    if s == "" {
      runs := [];
    } else {
      var n := |s| - 1;
      var before := WordsAreRuns(a, s[..n]);
      runs := NextRuns(a, s, before);
      hide AreRuns;
      var t, words := s[..n], Words(a, s[..n]);
      forall k | 0 <= k < |before| ensures Spells(a, s, before[k], words[k]) {
        SpellsOn(a, s, before[k], words[k]);
      }
      if a.alnum(s[n]) && n > 0 && a.alnum(s[n - 1]) {
        SpellsOn(a, s, before[|before| - 1], words[|before| - 1]);
      } else if a.alnum(s[n]) {
        SpellsOn(a, s, (n, n), "");
        assert "" + a.lower(s[n]) == a.lower(s[n]);
      }
    }
  }

  /** A word of the text without its last character is one of the text, and grows with it. */
  lemma SpellsOn(a: Alphabet, s: string, run: (nat, nat), word: string)
    requires s != "" && (Spells(a, s[..|s| - 1], run, word) || (run == (|s| - 1, |s| - 1) && word == ""))
    ensures Spells(a, s, run, word)
    ensures run.1 == |s| - 1 ==> Spells(a, s, (run.0, |s|), word + a.lower(s[|s| - 1]))
  {
    var n := |s| - 1;
    assert s[run.0..run.1] == s[..n][run.0..run.1];
    if run.1 == n {
      assert s[run.0..|s|][..n - run.0] == s[run.0..n];
    }
  }

  /** The runs with one more character: the last one grows, a new one begins, or all stay. */
  lemma NextRuns(a: Alphabet, s: string, before: seq<(nat, nat)>) returns (runs: seq<(nat, nat)>)
    requires s != "" && AreRuns(a, s[..|s| - 1], before)
    ensures AreRuns(a, s, runs)
    ensures var n := |s| - 1;
            if !a.alnum(s[n]) then runs == before
            else if n > 0 && a.alnum(s[n - 1]) then
              before != [] && before[|before| - 1].1 == n && runs == before[..|before| - 1] + [(before[|before| - 1].0, n + 1)]
            else runs == before + [(n, n + 1)]
  {
    hide Covered, IsRun;
    var n := |s| - 1;
    var t := s[..n];
    RunsEnd(a, t, before);
    assert forall k :: 0 <= k < n && a.alnum(s[k]) ==> Covered(before, k) by {
      assert forall k :: 0 <= k < n ==> t[k] == s[k];
    }
    if !a.alnum(s[n]) {
      runs := before;
    } else if n > 0 && a.alnum(s[n - 1]) {
      LastTouches(a, t, before);
      runs := before[..|before| - 1] + [(before[|before| - 1].0, n + 1)];
    } else {
      runs := before + [(n, n + 1)];
    }
    forall m | 0 <= m < |runs| ensures IsRun(a, s, runs[m].0, runs[m].1) {
      if m < |before| {
        assert IsRun(a, t, before[m].0, before[m].1);
      }
      RunStays(a, s, if m < |before| then before[m] else runs[m], runs[m]);
    }
    forall k | Covered(before, k) || (k == n && a.alnum(s[n])) ensures Covered(runs, k) {
      CoveredStill(before, runs, k);
    }
  }

  lemma RunsEnd(a: Alphabet, t: string, runs: seq<(nat, nat)>)
    requires AreRuns(a, t, runs)
    ensures forall m :: 0 <= m < |runs| ==> runs[m].0 < runs[m].1 <= |t|
    ensures t != "" && !a.alnum(t[|t| - 1]) ==> forall m :: 0 <= m < |runs| ==> runs[m].1 < |t|
  {
    forall m | 0 <= m < |runs|
      ensures runs[m].0 < runs[m].1 <= |t| && (t != "" && !a.alnum(t[|t| - 1]) ==> runs[m].1 < |t|)
    {
      assert IsRun(a, t, runs[m].0, runs[m].1);
    }
  }

  /** A run of the text without its last character stays one, or grows by that character. */
  lemma RunStays(a: Alphabet, s: string, before: (nat, nat), run: (nat, nat))
    requires s != ""
    requires IsRun(a, s[..|s| - 1], before.0, before.1) || (run == before == (|s| - 1, |s|) && (|s| > 1 ==> !a.alnum(s[|s| - 2])))
    requires run == before || (run == (before.0, |s|) && before.1 == |s| - 1)
    requires run == before && before.1 == |s| - 1 ==> !a.alnum(s[|s| - 1])
    requires run.1 == |s| ==> a.alnum(s[|s| - 1])
    ensures IsRun(a, s, run.0, run.1)
  {
    var t := s[..|s| - 1];
    assert forall k :: 0 <= k < |t| ==> t[k] == s[k];
  }

  lemma CoveredStill(before: seq<(nat, nat)>, runs: seq<(nat, nat)>, k: int)
    requires forall m :: 0 <= m < |before| ==> m < |runs| && runs[m].0 == before[m].0 && before[m].1 <= runs[m].1
    requires Covered(before, k) || (runs != [] && runs[|runs| - 1].0 <= k < runs[|runs| - 1].1)
    ensures Covered(runs, k)
  {
    if Covered(before, k) {
      var m :| 0 <= m < |before| && before[m].0 <= k < before[m].1;
      assert runs[m].0 <= k < runs[m].1;
    }
  }

  lemma LastTouches(a: Alphabet, t: string, runs: seq<(nat, nat)>)
    requires t != "" && a.alnum(t[|t| - 1]) && AreRuns(a, t, runs)
    ensures runs != [] && runs[|runs| - 1].1 == |t|
  {
    assert Covered(runs, |t| - 1);
    var m :| 0 <= m < |runs| && runs[m].0 <= |t| - 1 < runs[m].1;
    assert IsRun(a, t, runs[m].0, runs[m].1) && IsRun(a, t, runs[|runs| - 1].0, runs[|runs| - 1].1);
  }

  function JoinWith(words: seq<string>, separator: char): string {
    if words == [] then ""
    else if |words| == 1 then words[0]
    else JoinWith(words[..|words| - 1], separator) + [separator] + words[|words| - 1]
  }

  function Normalized(a: Alphabet, value: Option<string>): string {
    if value == None || value == Some("") then "" else JoinWith(Words(a, a.prepare(value.value)), ' ')
  }

  /** The loop over the prepared text, with its buffer, and the trim after it. */
  method Normalize(a: Alphabet, value: Option<string>) returns (normalized: string)
    requires a.Valid()
    ensures normalized == Normalized(a, value)
  {
    if value == None || value == Some("") {
      return "";
    }
    var text := a.prepare(value.value);
    normalized := "";
    var prevSpace := true;
    var i := 0;
    while i < |text|
      invariant 0 <= i <= |text| && Buffered(a, text[..i], normalized, prevSpace)
    {
      BufferNext(a, text[..i], text[i], normalized, prevSpace);
      assert text[..i] + [text[i]] == text[..i + 1];
      hide Buffered;
      if a.alnum(text[i]) {
        normalized := normalized + a.lower(text[i]);
        prevSpace := false;
      } else if !prevSpace {
        normalized := normalized + " ";
        prevSpace := true;
      }
      i := i + 1;
    }
    assert text[..i] == text;
    WordsClean(a, text);
    JoinEnds(Words(a, text));
    if normalized != "" && normalized[|normalized| - 1] == ' ' {
      normalized := normalized[..|normalized| - 1];
    }
  }

  /** The buffer after the text so far: the words, and one space after a closed one. */
  ghost predicate Buffered(a: Alphabet, text: string, buffer: string, prevSpace: bool) {
    var words := Words(a, text);
    && buffer == JoinWith(words, ' ') + (if words != [] && prevSpace then " " else "")
    && (!prevSpace <==> text != "" && a.alnum(text[|text| - 1]))
    && (words == [] ==> prevSpace)
  }

  lemma BufferNext(a: Alphabet, text: string, c: char, buffer: string, prevSpace: bool)
    requires Buffered(a, text, buffer, prevSpace)
    ensures a.alnum(c) ==> Buffered(a, text + [c], buffer + a.lower(c), false)
    ensures !a.alnum(c) && !prevSpace ==> Buffered(a, text + [c], buffer + " ", true)
    ensures !a.alnum(c) && prevSpace ==> Buffered(a, text + [c], buffer, true)
  {
    var words := Words(a, text);
    assert (text + [c])[..|text|] == text;
    JoinAppend(words, a.lower(c), ' ');
    if words != [] {
      JoinExtend(words, a.lower(c), ' ');
    }
    hide JoinWith;
  }

  lemma JoinAppend(words: seq<string>, w: string, separator: char)
    ensures JoinWith(words + [w], separator) == JoinWith(words, separator) + (if words != [] then [separator] else "") + w
  {
    assert (words + [w])[..|words|] == words;
  }

  lemma JoinExtend(words: seq<string>, more: string, separator: char)
    requires words != []
    ensures JoinWith(words[..|words| - 1] + [words[|words| - 1] + more], separator) == JoinWith(words, separator) + more
  {
    hide JoinWith;
    var init, last := words[..|words| - 1], words[|words| - 1];
    JoinAppend(init, last, separator);
    JoinAppend(init, last + more, separator);
    assert words == init + [last];
  }

  lemma {:induction false} JoinEnds(words: seq<string>)
    requires forall w :: w in words ==> w != "" && ' ' !in w
    ensures words != [] ==> JoinWith(words, ' ') != "" && JoinWith(words, ' ')[|JoinWith(words, ' ')| - 1] != ' '
  {
    if words != [] {
      var last := words[|words| - 1];
      assert last in words && last[|last| - 1] in last;
    }
  }

  lemma {:induction false} WordsClean(a: Alphabet, s: string)
    requires a.Valid()
    ensures forall w :: w in Words(a, s) ==> w != "" && ' ' !in w && ':' !in w && '+' !in w
  {
    if s != "" {
      var n := |s| - 1;
      var before := Words(a, s[..n]);
      WordsClean(a, s[..n]);
      forall w | w in Words(a, s) ensures w in before || w == a.lower(s[n]) || (before != [] && w == before[|before| - 1] + a.lower(s[n])) {
      }
      assert before != [] ==> before[|before| - 1] in before;
    }
  }

  lemma {:induction false} JoinClean(words: seq<string>, separator: char, c: char)
    requires c != separator && forall w :: w in words ==> c !in w
    ensures c !in JoinWith(words, separator)
  {
    if |words| > 1 {
      JoinClean(words[..|words| - 1], separator, c);
    }
  }

  /** Normalised text holds neither the separator of keys nor that of version markers. */
  lemma NormalizedClean(a: Alphabet, value: Option<string>)
    requires a.Valid()
    ensures ':' !in Normalized(a, value) && '+' !in Normalized(a, value)
  {
    if value.Some? {
      var words := Words(a, a.prepare(value.value));
      WordsClean(a, a.prepare(value.value));
      JoinClean(words, ' ', ':');
      JoinClean(words, ' ', '+');
    }
  }

  function WordsOf(a: Alphabet, value: Option<string>): seq<string> {
    if value == None || value == Some("") then [] else Words(a, a.prepare(value.value))
  }

  /** Two texts are the same once normalised exactly when they have the same words. */
  lemma NormalizedDecides(a: Alphabet, v: Option<string>, w: Option<string>)
    requires a.Valid()
    ensures Normalized(a, v) == Normalized(a, w) <==> WordsOf(a, v) == WordsOf(a, w)
  {
    hide Words, JoinWith;
    if v.Some? {
      WordsClean(a, a.prepare(v.value));
    }
    if w.Some? {
      WordsClean(a, a.prepare(w.value));
    }
    JoinNotEmpty([], ' ');
    if Normalized(a, v) == Normalized(a, w) {
      JoinInjective(WordsOf(a, v), WordsOf(a, w), ' ');
    }
  }

  // ---------------------------------------------------------------- version markers

  function Signature(tokens: seq<string>): string {
    JoinWith(Sort(tokens), '+')
  }

  lemma {:induction false} JoinInjective(a: seq<string>, b: seq<string>, c: char)
    requires (forall w :: w in a ==> w != "" && c !in w) && (forall w :: w in b ==> w != "" && c !in w)
    requires JoinWith(a, c) == JoinWith(b, c)
    ensures a == b
    decreases |a|
  {
    var s := JoinWith(a, c);
    if a == [] || b == [] {
      JoinNotEmpty(a, c);
      JoinNotEmpty(b, c);
    } else {
      var ia, la, ib, lb := a[..|a| - 1], a[|a| - 1], b[..|b| - 1], b[|b| - 1];
      assert la in a && lb in b && a == ia + [la] && b == ib + [lb];
      JoinAppend(ia, la, c);
      JoinAppend(ib, lb, c);
      LastPart(JoinWith(ia, c), ia != [], la, JoinWith(ib, c), ib != [], lb, c);
      assert forall w :: w in ia ==> w in a;
      assert forall w :: w in ib ==> w in b;
      JoinNotEmpty(ia, c);
      JoinNotEmpty(ib, c);
      JoinInjective(ia, ib, c);
    }
  }

  lemma JoinNotEmpty(a: seq<string>, c: char)
    requires forall w :: w in a ==> w != ""
    ensures JoinWith(a, c) == "" <==> a == []
  {
    if a != [] {
      assert a[|a| - 1] in a;
    }
  }

  /** What follows the last separator is determined. */
  lemma LastPart(p: string, hasP: bool, l: string, q: string, hasQ: bool, m: string, c: char)
    requires c !in l && c !in m && (!hasP ==> p == "") && (!hasQ ==> q == "")
    requires p + (if hasP then [c] else "") + l == q + (if hasQ then [c] else "") + m
    ensures l == m && p == q && hasP == hasQ
  {
    var s := p + (if hasP then [c] else "") + l;
    var n := |s|;
    assert hasP ==> n > |l| && s[n - |l| - 1] == c;
    assert hasQ ==> n > |m| && s[n - |m| - 1] == c;
    assert s[n - |l|..] == l && s[n - |m|..] == m;
    assert forall k :: n - |l| <= k < n ==> s[k] != c by {
      assert forall k :: n - |l| <= k < n ==> s[k] == l[k - (n - |l|)];
    }
    assert forall k :: n - |m| <= k < n ==> s[k] != c by {
      assert forall k :: n - |m| <= k < n ==> s[k] == m[k - (n - |m|)];
    }
    assert |l| == |m|;
    assert hasP && hasQ ==> p == s[..n - |l| - 1] && q == s[..n - |l| - 1];
  }

  /** Two lists of markers give the same signature exactly when they hold the same markers, each as
      often: neither their order nor where they were found matters, but repetitions do. */
  lemma SignatureDecides(a: seq<string>, b: seq<string>)
    requires (forall w :: w in a ==> w != "" && '+' !in w) && (forall w :: w in b ==> w != "" && '+' !in w)
    ensures Signature(a) == Signature(b) <==> multiset(a) == multiset(b)
  {
    SortAscends(a);
    SortAscends(b);
    if multiset(a) == multiset(b) {
      AscendingUnique(Sort(a), Sort(b));
    }
    if Signature(a) == Signature(b) {
      forall w | w in Sort(a) ensures w in a {
        assert w in multiset(Sort(a));
      }
      forall w | w in Sort(b) ensures w in b {
        assert w in multiset(Sort(b));
      }
      JoinInjective(Sort(a), Sort(b), '+');
    }
  }

  // ---------------------------------------------------------------- identities and their keys

  datatype ItemType = Artist | Album | Track | Playlist {
    function Label(): string {
      match this
      case Artist => "artist"
      case Album => "album"
      case Track => "track"
      case Playlist => "playlist"
    }
  }

  datatype Hints = Hints(musicBrainz: Option<string>, isrc: Option<string>, upc: Option<string>)

  datatype Item = Item(kind: ItemType, provider: string, id: string, title: string, artist: Option<string>,
                       album: Option<string>, hints: Option<Hints>)

  /** The tier an identity was derived in, with the fields that went into its key. */
  datatype Identity =
    | ByMusicBrainz(kind: ItemType, text: string)
    | ByIsrc(text: string)
    | ByUpc(text: string)
    | ByArtist(title: string)
    | ByAlbum(artist: string, title: string, version: string)
    | ByTrack(artist: string, album: string, title: string, version: string)
    | ByProvider(kind: ItemType, provider: string, id: string)

  /** Text handling, and the version markers found in a text. */
  datatype Texts = Texts(alphabet: Alphabet, blank: string -> bool, markers: string -> seq<string>) {
    function Norm(value: Option<string>): string {
      Normalized(alphabet, value)
    }

    /** Every found marker is normalised, and an empty one is dropped. */
    function Tokens(found: seq<string>): (tokens: seq<string>) {
      if found == [] then []
      else
        var w := Norm(Some(found[0]));
        (if w == "" then [] else [w]) + Tokens(found[1..])
    }

    function Version(value: string): string {
      Signature(Tokens(markers(value)))
    }

    predicate Given(hint: Option<string>) {
      hint.Some? && !blank(hint.value)
    }
  }

  /** The first tier that applies. */
  function Derive(x: Texts, item: Item): Identity {
    var hints := if item.hints.Some? then item.hints.value else Hints(None, None, None);
    var title, artist, album := x.Norm(Some(item.title)), x.Norm(item.artist), x.Norm(item.album);
    var version := x.Version(item.title + " " + (if item.album.Some? then item.album.value else ""));
    if x.Given(hints.musicBrainz) then ByMusicBrainz(item.kind, x.Norm(hints.musicBrainz))
    else if item.kind == Track && x.Given(hints.isrc) then ByIsrc(x.Norm(hints.isrc))
    else if item.kind == Album && x.Given(hints.upc) then ByUpc(x.Norm(hints.upc))
    else if item.kind == Artist && title != "" then ByArtist(title)
    else if item.kind == Album && title != "" && artist != "" then ByAlbum(artist, title, version)
    else if item.kind == Track && title != "" && artist != "" && album != "" then ByTrack(artist, album, title, version)
    else ByProvider(item.kind, item.provider, item.id)
  }

  function Colon(head: string, tail: string): string {
    head + ":" + tail
  }

  function Print(i: Identity): string {
    match i
    case ByMusicBrainz(kind, text) => Colon(kind.Label(), Colon("musicbrainz", text))
    case ByIsrc(text) => Colon("track", Colon("isrc", text))
    case ByUpc(text) => Colon("album", Colon("upc", text))
    case ByArtist(title) => Colon("artist", title)
    case ByAlbum(artist, title, version) => Colon("album", Colon(artist, Colon(title, version)))
    case ByTrack(artist, album, title, version) => Colon("track", Colon(artist, Colon(album, Colon(title, version))))
    case ByProvider(kind, provider, id) => Colon("provider", Colon(kind.Label(), Colon(provider, id)))
  }

  function Key(x: Texts, item: Item): string {
    Print(Derive(x, item))
  }

  /** Normalised fields hold no colon; a provider's name should not either. */
  predicate Clean(i: Identity) {
    match i
    case ByMusicBrainz(_, text) => ':' !in text
    case ByIsrc(text) => ':' !in text
    case ByUpc(text) => ':' !in text
    case ByArtist(title) => ':' !in title
    case ByAlbum(artist, title, version) => ':' !in artist && ':' !in title && ':' !in version
    case ByTrack(artist, album, title, version) => ':' !in artist && ':' !in album && ':' !in title && ':' !in version
    case ByProvider(_, provider, _) => ':' !in provider
  }

  /** The text before the first colon, and the text after it. */
  function SplitOnce(s: string): (string, Option<string>) {
    if s == "" then ("", None)
    else if s[0] == ':' then ("", Some(s[1..]))
    else
      var (head, tail) := SplitOnce(s[1..]);
      ([s[0]] + head, tail)
  }

  function Fields(s: string): (fields: seq<string>)
    ensures fields != []
    decreases |s|
  {
    var (head, tail) := SplitOnce(s);
    SplitShorter(s);
    if tail.None? then [head] else [head] + Fields(tail.value)
  }

  lemma {:induction false} SplitShorter(s: string)
    ensures SplitOnce(s).1.Some? ==> |SplitOnce(s).1.value| < |s|
  {
    if s != "" && s[0] != ':' {
      SplitShorter(s[1..]);
    }
  }

  lemma {:induction false} SplitAt(head: string, tail: string)
    requires ':' !in head
    ensures SplitOnce(Colon(head, tail)) == (head, Some(tail))
    ensures SplitOnce(head) == (head, None)
  {
    if head != "" {
      assert Colon(head, tail)[1..] == Colon(head[1..], tail);
      SplitAt(head[1..], tail);
      assert [head[0]] + head[1..] == head;
    } else {
      assert Colon(head, tail)[1..] == tail;
    }
  }

  function KindOf(name: string): ItemType {
    if name == "artist" then Artist else if name == "album" then Album else if name == "track" then Track else Playlist
  }

  /** Reads a key back. */
  function Parse(key: string): Option<Identity> {
    var (head, tail) := SplitOnce(key);
    if tail.None? then None
    else if head == "provider" then
      var (kind, rest) := SplitOnce(tail.value);
      if rest.None? then None
      else
        var (provider, id) := SplitOnce(rest.value);
        if id.None? then None else Some(ByProvider(KindOf(kind), provider, id.value))
    else ParseFields(head, Fields(tail.value))
  }

  function ParseFields(head: string, f: seq<string>): Option<Identity> {
    if |f| == 1 then Some(ByArtist(f[0]))
    else if |f| == 2 && f[0] == "musicbrainz" then Some(ByMusicBrainz(KindOf(head), f[1]))
    else if |f| == 2 && f[0] == "isrc" then Some(ByIsrc(f[1]))
    else if |f| == 2 then Some(ByUpc(f[1]))
    else if |f| == 3 then Some(ByAlbum(f[0], f[1], f[2]))
    else if |f| == 4 then Some(ByTrack(f[0], f[1], f[2], f[3]))
    else None
  }

  lemma FieldsOf(head: string, tail: string)
    requires ':' !in head
    ensures Fields(head) == [head] && Fields(Colon(head, tail)) == [head] + Fields(tail)
  {
    SplitAt(head, tail);
    hide Colon;
  }

  lemma ParseRest(head: string, tail: string)
    requires ':' !in head && head != "provider"
    ensures Parse(Colon(head, tail)) == ParseFields(head, Fields(tail))
  {
    SplitAt(head, tail);
    hide Colon;
  }

  lemma ParseTwo(head: string, tier: string, text: string)
    requires ':' !in head && head != "provider" && ':' !in tier && ':' !in text
    ensures Parse(Colon(head, Colon(tier, text))) == ParseFields(head, [tier, text])
  {
    hide Parse, ParseFields, Fields, Colon;
    ParseRest(head, Colon(tier, text));
    FieldsOf(tier, text);
    FieldsOf(text, "");
    assert [tier] + [text] == [tier, text];
  }

  lemma FieldsThree(a: string, b: string, c: string)
    requires ':' !in a && ':' !in b && ':' !in c
    ensures Fields(Colon(a, Colon(b, c))) == [a, b, c]
  {
    hide Fields, Colon;
    FieldsOf(a, Colon(b, c));
    FieldsOf(b, c);
    FieldsOf(c, "");
    assert [a] + ([b] + [c]) == [a, b, c];
  }

  lemma FieldsFour(a: string, b: string, c: string, d: string)
    requires ':' !in a && ':' !in b && ':' !in c && ':' !in d
    ensures Fields(Colon(a, Colon(b, Colon(c, d)))) == [a, b, c, d]
  {
    hide Fields, Colon;
    FieldsOf(a, Colon(b, Colon(c, d)));
    FieldsThree(b, c, d);
    assert [a] + [b, c, d] == [a, b, c, d];
  }

  lemma ParseProvider(kind: ItemType, provider: string, id: string)
    requires ':' !in provider
    ensures Parse(Colon("provider", Colon(kind.Label(), Colon(provider, id)))) == Some(ByProvider(kind, provider, id))
  {
    hide SplitOnce, KindOf, Colon;
    Labels(kind);
    SplitAt("provider", Colon(kind.Label(), Colon(provider, id)));
    SplitAt(kind.Label(), Colon(provider, id));
    SplitAt(provider, id);
  }

  lemma Labels(kind: ItemType)
    ensures ':' !in kind.Label() && KindOf(kind.Label()) == kind && kind.Label() != "provider"
  {
  }

  /** Printing loses nothing: every key with clean fields reads back as what it was printed from. */
  lemma ParsePrint(i: Identity)
    requires Clean(i)
    ensures Parse(Print(i)) == Some(i)
  {
    hide Parse, KindOf, Fields, Colon;
    match i {
      case ByMusicBrainz(kind, text) =>
        Labels(kind);
        ParseTwo(kind.Label(), "musicbrainz", text);
      case ByIsrc(text) => ParseTwo("track", "isrc", text);
      case ByUpc(text) => ParseTwo("album", "upc", text);
      case ByArtist(title) =>
        ParseRest("artist", title);
        FieldsOf(title, "");
      case ByAlbum(artist, title, version) =>
        ParseRest("album", Colon(artist, Colon(title, version)));
        FieldsThree(artist, title, version);
      case ByTrack(artist, album, title, version) =>
        ParseRest("track", Colon(artist, Colon(album, Colon(title, version))));
        FieldsFour(artist, album, title, version);
      case ByProvider(kind, provider, id) => ParseProvider(kind, provider, id);
    }
  }

  lemma {:induction false} TokensClean(x: Texts, found: seq<string>)
    requires x.alphabet.Valid()
    ensures forall w :: w in x.Tokens(found) ==> w != "" && '+' !in w && ':' !in w
  {
    if found != [] {
      TokensClean(x, found[1..]);
      NormalizedClean(x.alphabet, Some(found[0]));
    }
  }

  /** A marker is in the signature as often as a text that normalises to it was found; texts that
      normalise to nothing are left out. */
  lemma {:induction false} TokensCounted(x: Texts, found: seq<string>, w: string)
    ensures multiset(x.Tokens(found))[w] == if w == "" then 0 else |Where(found, text => x.Norm(Some(text)) == w)|
  {
    hide Normalized, Where;
    WhereFirst(found, text => x.Norm(Some(text)) == w);
    if found != [] {
      TokensCounted(x, found[1..], w);
    }
  }

  lemma DerivedClean(x: Texts, item: Item)
    requires x.alphabet.Valid() && ':' !in item.provider
    ensures Clean(Derive(x, item))
  {
    hide Normalized, Signature;
    forall value ensures ':' !in x.Norm(value) {
      NormalizedClean(x.alphabet, value);
    }
    forall value ensures ':' !in x.Version(value) {
      VersionClean(x, value);
    }
  }

  lemma VersionClean(x: Texts, value: string)
    requires x.alphabet.Valid()
    ensures ':' !in x.Version(value)
  {
    var tokens := x.Tokens(x.markers(value));
    TokensClean(x, x.markers(value));
    forall w | w in Sort(tokens) ensures ':' !in w {
      assert w in multiset(Sort(tokens));
      assert w in tokens;
    }
    JoinClean(Sort(tokens), '+', ':');
  }

  /** Two items get the same key exactly when they were derived in the same tier, with the same type
      and the same fields, provided their providers' names hold no colon. */
  lemma KeysDecide(x: Texts, a: Item, b: Item)
    requires x.alphabet.Valid() && ':' !in a.provider && ':' !in b.provider
    ensures Key(x, a) == Key(x, b) <==> Derive(x, a) == Derive(x, b)
  {
    DerivedClean(x, a);
    DerivedClean(x, b);
    ParsePrint(Derive(x, a));
    ParsePrint(Derive(x, b));
    hide Parse, Print, Derive, Clean;
  }

  /** An item with a MusicBrainz id gets the key of the items of its type that have the same normalised
      id, whatever else is known of them, and of no others. */
  lemma MusicBrainzDecides(x: Texts, a: Item, b: Item)
    requires x.alphabet.Valid() && ':' !in a.provider && ':' !in b.provider
    requires HasMusicBrainz(x, a)
    ensures Key(x, a) == Key(x, b) <==>
            HasMusicBrainz(x, b) && a.kind == b.kind && x.Norm(a.hints.value.musicBrainz) == x.Norm(b.hints.value.musicBrainz)
  {
    hide Key, Print, Normalized, Signature, Texts.Tokens;
    KeysDecide(x, a, b);
  }

  predicate HasMusicBrainz(x: Texts, item: Item) {
    item.hints.Some? && x.Given(item.hints.value.musicBrainz)
  }

  /** The code that identifies a track or an album where there is no MusicBrainz id. */
  function Code(x: Texts, item: Item): Option<string> {
    if item.hints.None? || HasMusicBrainz(x, item) then None
    else if item.kind == Track && x.Given(item.hints.value.isrc) then item.hints.value.isrc
    else if item.kind == Album && x.Given(item.hints.value.upc) then item.hints.value.upc
    else None
  }

  /** The same for the ISRC of a track and the UPC of an album, one tier below. */
  lemma CodesDecide(x: Texts, a: Item, b: Item)
    requires x.alphabet.Valid() && ':' !in a.provider && ':' !in b.provider
    requires Code(x, a).Some?
    ensures Key(x, a) == Key(x, b) <==>
            Code(x, b).Some? && a.kind == b.kind && x.Norm(Code(x, a)) == x.Norm(Code(x, b))
  {
    hide Key, Print, Normalized, Signature, Texts.Tokens;
    KeysDecide(x, a, b);
  }

  /** Neither a MusicBrainz id nor a code tells what the item is. */
  predicate NoCode(x: Texts, item: Item) {
    !HasMusicBrainz(x, item) && Code(x, item).None?
  }

  predicate ArtistByName(x: Texts, item: Item) {
    item.kind == Artist && NoCode(x, item) && x.Norm(Some(item.title)) != ""
  }

  predicate AlbumByMetadata(x: Texts, item: Item) {
    item.kind == Album && NoCode(x, item) && x.Norm(Some(item.title)) != "" && x.Norm(item.artist) != ""
  }

  predicate TrackByMetadata(x: Texts, item: Item) {
    && item.kind == Track && NoCode(x, item)
    && x.Norm(Some(item.title)) != "" && x.Norm(item.artist) != "" && x.Norm(item.album) != ""
  }

  /** The version markers in the title and the album, which are read as one text. */
  function Markers(x: Texts, item: Item): seq<string> {
    x.Tokens(x.markers(item.title + " " + (if item.album.Some? then item.album.value else "")))
  }

  lemma MarkersDecide(x: Texts, a: Item, b: Item)
    requires x.alphabet.Valid()
    ensures Signature(Markers(x, a)) == Signature(Markers(x, b)) <==> multiset(Markers(x, a)) == multiset(Markers(x, b))
  {
    TokensClean(x, x.markers(a.title + " " + (if a.album.Some? then a.album.value else "")));
    TokensClean(x, x.markers(b.title + " " + (if b.album.Some? then b.album.value else "")));
    SignatureDecides(Markers(x, a), Markers(x, b));
  }

  /** An artist known by name only gets the key of the artists known by name only whose normalised names
      are the same. */
  lemma ArtistsDecide(x: Texts, a: Item, b: Item)
    requires x.alphabet.Valid() && ':' !in a.provider && ':' !in b.provider
    requires ArtistByName(x, a)
    ensures Key(x, a) == Key(x, b) <==> ArtistByName(x, b) && x.Norm(Some(a.title)) == x.Norm(Some(b.title))
  {
    hide Key, Print, Normalized, Signature, Texts.Tokens;
    KeysDecide(x, a, b);
  }

  /** An album known by title and artist only gets the key of such albums whose titles and artists agree
      once normalised and that have the same version markers. */
  lemma AlbumsDecide(x: Texts, a: Item, b: Item)
    requires x.alphabet.Valid() && ':' !in a.provider && ':' !in b.provider
    requires AlbumByMetadata(x, a)
    ensures Key(x, a) == Key(x, b) <==>
            && AlbumByMetadata(x, b)
            && x.Norm(Some(a.title)) == x.Norm(Some(b.title)) && x.Norm(a.artist) == x.Norm(b.artist)
            && multiset(Markers(x, a)) == multiset(Markers(x, b))
  {
    hide Key, Print, Normalized, Signature, Texts.Tokens;
    KeysDecide(x, a, b);
    MarkersDecide(x, a, b);
  }

  /** A track known by title, artist and album only gets the key of such tracks for which those agree once
      normalised and whose titles and albums hold the same version markers: a live recording never takes
      the identity of a studio one. */
  lemma VersionsStayApart(x: Texts, a: Item, b: Item)
    requires x.alphabet.Valid() && ':' !in a.provider && ':' !in b.provider
    requires TrackByMetadata(x, a)
    ensures Key(x, a) == Key(x, b) <==>
            && TrackByMetadata(x, b)
            && x.Norm(Some(a.title)) == x.Norm(Some(b.title)) && x.Norm(a.artist) == x.Norm(b.artist)
            && x.Norm(a.album) == x.Norm(b.album)
            && multiset(Markers(x, a)) == multiset(Markers(x, b))
  {
    hide Key, Print, Normalized, Signature, Texts.Tokens;
    KeysDecide(x, a, b);
    MarkersDecide(x, a, b);
  }

  /** Any other item keeps to itself: it shares its key only with such an item of its own type, provider
      and id. */
  lemma ProviderDecides(x: Texts, a: Item, b: Item)
    requires x.alphabet.Valid() && ':' !in a.provider && ':' !in b.provider
    requires NoCode(x, a) && !ArtistByName(x, a) && !AlbumByMetadata(x, a) && !TrackByMetadata(x, a)
    ensures Key(x, a) == Key(x, b) <==>
            && NoCode(x, b) && !ArtistByName(x, b) && !AlbumByMetadata(x, b) && !TrackByMetadata(x, b)
            && a.kind == b.kind && a.provider == b.provider && a.id == b.id
  {
    hide Key, Print, Normalized, Signature, Texts.Tokens;
    KeysDecide(x, a, b);
  }

  /** The condition on provider names is needed, and this is how far: some ids of two different
      providers give the same key exactly when one name followed by a colon begins the other. */
  lemma ProviderClash(kind: ItemType, p: string, q: string)
    requires p != q
    ensures (exists i, j :: Print(ByProvider(kind, p, i)) == Print(ByProvider(kind, q, j)))
       <==> (p + ":" <= q + ":" || q + ":" <= p + ":")
  {
    hide Print;
    if i, j :| Print(ByProvider(kind, p, i)) == Print(ByProvider(kind, q, j)) {
      SameProviderKey(kind, p, i, q, j);
      Begins(p + ":", i, q + ":", j);
    }
    if p + ":" <= q + ":" {
      var i := (q + ":")[|p + ":"|..];
      assert p + ":" + i == q + ":" + "";
      SameProviderKey(kind, p, i, q, "");
    } else if q + ":" <= p + ":" {
      var j := (p + ":")[|q + ":"|..];
      assert q + ":" + j == p + ":" + "";
      SameProviderKey(kind, p, "", q, j);
    }
  }

  lemma SameProviderKey(kind: ItemType, p: string, i: string, q: string, j: string)
    ensures Print(ByProvider(kind, p, i)) == Print(ByProvider(kind, q, j)) <==> p + ":" + i == q + ":" + j
  {
    SameTail("provider", Colon(kind.Label(), Colon(p, i)), Colon(kind.Label(), Colon(q, j)));
    SameTail(kind.Label(), Colon(p, i), Colon(q, j));
  }

  lemma SameTail(head: string, a: string, b: string)
    ensures Colon(head, a) == Colon(head, b) <==> a == b
  {
    assert Colon(head, a)[|head| + 1..] == a && Colon(head, b)[|head| + 1..] == b;
  }

  lemma Begins(a: string, i: string, b: string, j: string)
    requires a + i == b + j
    ensures a <= b || b <= a
  {
    if |a| <= |b| {
      assert b[..|a|] == (b + j)[..|a|] == (a + i)[..|a|] == a;
    } else {
      assert a[..|b|] == (a + i)[..|b|] == (b + j)[..|b|] == b;
    }
  }

  // ---------------------------------------------------------------- plain text, for examples

  predicate PlainAlnum(c: char) {
    'a' <= c <= 'z' || 'A' <= c <= 'Z' || '0' <= c <= '9'
  }

  function PlainLower(c: char): char {
    if 'A' <= c <= 'Z' then c - 'A' + 'a' else c
  }

  /** The expression for version markers on plain text, for the one marker `live`: whole words only,
      in any case, from left to right; `start` says that a word may begin here. */
  function PlainMarkers(s: string, start: bool): seq<string> {
    if |s| < 4 then []
    else if start && IsLive(s[..4]) && (|s| == 4 || !PlainAlnum(s[4])) then [s[..4]] + PlainMarkers(s[4..], false)
    else PlainMarkers(s[1..], !PlainAlnum(s[0]))
  }

  predicate IsLive(s: string) {
    |s| == 4 && PlainLower(s[0]) == 'l' && PlainLower(s[1]) == 'i' && PlainLower(s[2]) == 'v' && PlainLower(s[3]) == 'e'
  }

  /** Text of ASCII letters, digits and spaces, which needs no preparing. */
  const PLAIN: Texts :=
    Texts(Alphabet(s => s, c => PlainAlnum(c), c => [PlainLower(c)]), s => forall c :: c in s ==> c == ' ', s => PlainMarkers(s, true))

  /** A word in lower case is normalised already. */
  lemma PlainWord(w: string)
    requires w != "" && forall c :: c in w ==> PlainAlnum(c) && PlainLower(c) == c
    ensures PLAIN.Norm(Some(w)) == w
  {
    OneWord(w);
  }

  lemma {:induction false} OneWord(w: string)
    requires w != "" && forall c :: c in w ==> PlainAlnum(c) && PlainLower(c) == c
    ensures Words(PLAIN.alphabet, w) == [w]
  {
    var n := |w| - 1;
    assert w[n] in w;
    assert w == w[..n] + [w[n]];
    if n > 0 {
      OneWord(w[..n]);
      assert w[n - 1] in w;
    } else {
      assert w[..0] == "";
    }
  }

  /** The markers are documented as distinct; a title that repeats one gets another signature. */
  lemma RepeatedMarkerSeparates()
    ensures PLAIN.Tokens(PLAIN.markers("live")) == ["live"]
    ensures PLAIN.Tokens(PLAIN.markers("live live")) == ["live", "live"]
    ensures PLAIN.Version("live") != PLAIN.Version("live live")
  {
    var s := "live live";
    assert s[..4] == "live" && s[4..] == " live" && s[4..][1..] == "live";
    assert PlainMarkers("", false) == [];
    assert "live"[..4] == "live" && "live"[4..] == "";
    assert PlainMarkers("live", true) == ["live"];
    assert PlainMarkers(" live", false) == ["live"];
    assert PlainMarkers(s, true) == ["live", "live"];
    PlainWord("live");
    LiveTokens();
    hide PlainMarkers;
    SignatureDecides(["live"], ["live", "live"]);
    assert multiset(["live"])["live"] == 1 && multiset(["live", "live"])["live"] == 2;
  }

  lemma LiveTokens()
    requires PLAIN.Norm(Some("live")) == "live"
    ensures PLAIN.Tokens(["live"]) == ["live"] && PLAIN.Tokens(["live", "live"]) == ["live", "live"]
  {
    assert ["live", "live"][1..] == ["live"] && ["live"][1..] == [];
    assert PLAIN.Tokens([]) == [];
  }
}
