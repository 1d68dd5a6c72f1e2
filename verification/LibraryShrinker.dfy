/** Shrinking a library: each eligible FLAC is encoded next to itself, linked under its MP3 name,
    every playlist that names it and can be read is rewritten, and only then is the FLAC removed.  The
    process may stop between any two steps, and any file operation may fail, reading a playlist
    included. */
module LibraryShrinker {
  import opened Prelude

  /** A path of the library, or one of the two kinds of scratch files, whose names are fresh. */
  datatype Path = Named(name: string) | ScratchAudio(n: nat) | ScratchList(n: nat)

  datatype File =
    | Audio(track: int, size: nat)
    | Playlist(readable: bool, lines: seq<string>)
    | Other(content: string)

  type Files = map<Path, File>

  // ---------------------------------------------------------------- names

  function Lower(c: char): char {
    if 'A' <= c <= 'Z' then (c as int + 32) as char else c
  }

  predicate EndsWith(name: string, ending: string) {
    |name| > |ending| && forall i :: 0 <= i < |ending| ==> Lower(name[|name| - |ending| + i]) == ending[i]
  }

  predicate IsFlac(name: string) {
    EndsWith(name, ".flac") && name[|name| - 6] != '/'
  }

  predicate IsPlaylist(name: string) {
    EndsWith(name, ".m3u") || EndsWith(name, ".m3u8")
  }

  /** `with_extension("mp3")` on a FLAC name. */
  function Mp3Of(flac: string): string
    requires IsFlac(flac)
  {
    flac[..|flac| - 4] + "mp3"
  }

  function Parent(name: string): string {
    if name == "" then ""
    else if name[|name| - 1] == '/' then (if |name| == 1 then "/" else name[..|name| - 1])
    else Parent(name[..|name| - 1])
  }

  function Join(dir: string, name: string): string {
    if dir == "" || dir[|dir| - 1] == '/' then dir + name else dir + "/" + name
  }

  /** The rest of a name below a directory. */
  function Below(dir: string, name: string): Option<string> {
    var prefix := Join(dir, "");
    if prefix <= name then Some(name[|prefix|..]) else None
  }

  function Slashes(name: string): string {
    if name == "" then "" else [if name[0] == '\\' then '/' else name[0]] + Slashes(name[1..])
  }

  // ---------------------------------------------------------------- lines

  predicate IsSpace(c: char) {
    || '\U{0009}' <= c <= '\U{000d}' || c == ' ' || c == '\U{0085}' || c == '\U{00a0}' || c == '\U{1680}'
    || '\U{2000}' <= c <= '\U{200a}' || c in {'\U{2028}', '\U{2029}', '\U{202f}', '\U{205f}', '\U{3000}'}
  }

  predicate Trimmed(s: string) {
    s != "" ==> !IsSpace(s[0]) && !IsSpace(s[|s| - 1])
  }

  function Trim(s: string): (t: string)
    ensures Trimmed(t)
    ensures Trimmed(s) ==> t == s
  {
    if s == "" then ""
    else if IsSpace(s[0]) then Trim(s[1..])
    else if IsSpace(s[|s| - 1]) then Trim(s[..|s| - 1])
    else s
  }

  /** Trimming takes away the surrounding blanks and nothing else. */
  lemma {:induction false} TrimTakesBlanks(s: string) returns (from: nat, to: nat)
    ensures from <= to <= |s| && Trim(s) == s[from..to]
    ensures forall i :: 0 <= i < from || to <= i < |s| ==> IsSpace(s[i])
    ensures from < to ==> !IsSpace(s[from]) && !IsSpace(s[to - 1])
  {
    hide IsSpace;
    from, to := 0, |s|;
    if s != "" && IsSpace(s[0]) {
      var a, b := TrimTakesBlanks(s[1..]);
      from, to := a + 1, b + 1;
      assert s[1..][a..b] == s[from..to];
      assert forall i :: 0 < i < |s| ==> s[i] == s[1..][i - 1];
    } else if s != "" && IsSpace(s[|s| - 1]) {
      from, to := TrimTakesBlanks(s[..|s| - 1]);
      assert s[..|s| - 1][from..to] == s[from..to];
      assert forall i :: 0 <= i < |s| - 1 ==> s[i] == s[..|s| - 1][i];
    }
  }

  predicate IsAbsolute(name: string) {
    name != "" && name[0] == '/'
  }

  /** The name that a line of a playlist in `dir` refers to, put together without looking at the disk. */
  function Refers(dir: string, line: string): Option<string> {
    var t := Trim(line);
    if t == "" || t[0] == '#' then None
    else if IsAbsolute(t) then Some(t)
    else Some(Join(dir, t))
  }

  function RewriteLine(dir: string, line: string, source: string): string
    requires IsFlac(source)
  {
    if Refers(dir, line) != Some(source) then line
    else if IsAbsolute(Trim(line)) then Mp3Of(source)
    else match Below(dir, Mp3Of(source))
      case Some(rest) => Slashes(rest)
      case None => Mp3Of(source)
  }

  function RewriteLines(dir: string, lines: seq<string>, source: string): (r: seq<string>)
    requires IsFlac(source)
    ensures |r| == |lines| && forall i :: 0 <= i < |lines| ==> r[i] == RewriteLine(dir, lines[i], source)
  {
    seq(|lines|, i requires 0 <= i < |lines| => RewriteLine(dir, lines[i], source))
  }

  lemma {:induction false} SlashesAt(name: string)
    ensures |Slashes(name)| == |name|
    ensures forall i :: 0 <= i < |name| ==> Slashes(name)[i] == if name[i] == '\\' then '/' else name[i]
  {
    if name != "" {
      SlashesAt(name[1..]);
    }
  }

  lemma SlashesSame(name: string)
    ensures Slashes(name) == name <==> '\\' !in name
  {
    SlashesAt(name);
  }

  lemma FlacChars(source: string)
    requires IsFlac(source)
    ensures var n := |source|;
            n >= 6 && source[n - 6] != '/' && source[n - 5] == '.' && source[n - 4] in {'f', 'F'} && source[n - 3] in {'l', 'L'}
            && source[n - 2] in {'a', 'A'} && source[n - 1] in {'c', 'C'}
  {
    var n := |source|;
    assert Lower(source[n - 5 + 0]) == ".flac"[0];
    assert Lower(source[n - 5 + 1]) == ".flac"[1];
    assert Lower(source[n - 5 + 2]) == ".flac"[2];
    assert Lower(source[n - 5 + 3]) == ".flac"[3];
    assert Lower(source[n - 5 + 4]) == ".flac"[4];
  }

  lemma MP3Ends(source: string)
    requires IsFlac(source)
    ensures EndsWith(Mp3Of(source), ".mp3") && |Mp3Of(source)| == |source| - 1
    ensures Mp3Of(source) != source
  {
    FlacChars(source);
  }

  lemma JoinPrefix(dir: string, t: string)
    ensures Join(dir, t) == Join(dir, "") + t
    ensures dir != "" ==> Join(dir, "") != "" && Join(dir, "")[|Join(dir, "")| - 1] == '/'
  {
  }

  /** The relative name of a FLAC below its playlist's directory has a stem of its own. */
  lemma RelativeFlac(prefix: string, t: string, source: string)
    requires IsFlac(source) && prefix + t == source && (prefix == "" || prefix[|prefix| - 1] == '/')
    ensures |t| >= 6 && t[|t| - 4..] == source[|source| - 4..]
    ensures Mp3Of(source) == prefix + (t[..|t| - 4] + "mp3")
  {
    FlacChars(source);
    if prefix != "" {
      assert source[|prefix| - 1] == '/';
    }
    hide IsFlac, EndsWith;
    assert source[..|source| - 4] == prefix + t[..|t| - 4];
  }

  lemma BackslashInStem(t: string, source: string)
    requires IsFlac(source) && |t| >= 6 && t[|t| - 4..] == source[|source| - 4..]
    ensures '\\' in t[..|t| - 4] + "mp3" <==> '\\' in t
  {
    FlacChars(source);
    var tail := t[|t| - 4..];
    assert tail[0] == source[|source| - 4] && tail[1] == source[|source| - 3];
    assert tail[2] == source[|source| - 2] && tail[3] == source[|source| - 1];
    assert t == t[..|t| - 4] + tail;
    hide IsFlac, EndsWith;
  }

  /** A line that the rewriting gets right: absolute, or relative without a backslash. */
  predicate Plain(line: string) {
    IsAbsolute(Trim(line)) || '\\' !in Trim(line)
  }

  /** A line that refers to the source refers, once rewritten, to the MP3: always when it is absolute,
      and when it is relative exactly when it has no backslash, which the rewriting turns into a
      separator. */
  lemma RewriteRefers(dir: string, line: string, source: string)
    requires IsFlac(source) && IsAbsolute(source) && Refers(dir, line) == Some(source)
    ensures Refers(dir, RewriteLine(dir, line, source)) == Some(Mp3Of(source)) <==> Plain(line)
    ensures Refers(dir, RewriteLine(dir, line, source)).Some? && !IsFlac(Refers(dir, RewriteLine(dir, line, source)).value)
  {
    var t, mp3 := Trim(line), Mp3Of(source);
    MP3Ends(source);
    if IsAbsolute(t) {
      assert mp3[|mp3| - 1] == '3' && mp3[0] == source[0];
      assert Trim(mp3) == mp3;
      NotFlac(Some(mp3));
    } else {
      JoinPrefix(dir, t);
      var prefix := Join(dir, "");
      RelativeFlac(prefix, t, source);
      BackslashInStem(t, source);
      NotFlac(Refers(dir, Slashes(t[..|t| - 4] + "mp3")));
      hide IsFlac, EndsWith, Mp3Of;
      RelativeRefers(dir, t[..|t| - 4] + "mp3", mp3);
      assert RewriteLine(dir, line, source) == Slashes(t[..|t| - 4] + "mp3");
    }
  }

  predicate EndsInThree(name: string) {
    name != "" && name[|name| - 1] == '3'
  }

  lemma NotFlac(name: Option<string>)
    ensures name.Some? && EndsInThree(name.value) ==> !IsFlac(name.value)
  {
    if name.Some? && IsFlac(name.value) {
      FlacChars(name.value);
    }
  }

  lemma RelativeRefers(dir: string, rest: string, mp3: string)
    requires |rest| > 1 && mp3 == Join(dir, "") + rest && Join(dir, "") != "" && rest[|rest| - 1] == '3'
    requires rest[0] != '#' && !IsSpace(rest[0]) && rest[0] != '/'
    ensures Below(dir, mp3) == Some(rest)
    ensures Refers(dir, Slashes(rest)) == Some(mp3) <==> '\\' !in rest
    ensures Refers(dir, Slashes(rest)).Some? && EndsInThree(Refers(dir, Slashes(rest)).value)
  {
    var prefix, r := Join(dir, ""), Slashes(rest);
    SlashesAt(rest);
    SlashesSame(rest);
    JoinPrefix(dir, r);
    assert r[|r| - 1] == '3';
    assert Trim(r) == r;
    if !IsAbsolute(r) {
      assert (prefix + r)[|prefix|..] == r && mp3[|prefix|..] == rest;
    } else {
      assert '\\' in rest;
    }
  }

  // ---------------------------------------------------------------- where a name leads

  /** One more component: `.` stays, `..` goes up. */
  function Push(above: seq<string>, component: string): seq<string> {
    if component == "" || component == "." then above
    else if component == ".." then (if above == [] then [] else above[..|above| - 1])
    else above + [component]
  }

  /** The components of a name so far, and the one it is in. */
  function Walk(name: string): (seq<string>, string) {
    if name == "" then ([], "")
    else
      var (above, component) := Walk(name[..|name| - 1]);
      var c := name[|name| - 1];
      if c == '/' then (Push(above, component), "") else (above, component + [c])
  }

  /** Where an absolute name leads. */
  function Target(name: string): seq<string> {
    Push(Walk(name).0, Walk(name).1)
  }

  function Shown(components: seq<string>): string {
    if components == [] then "" else Shown(components[..|components| - 1]) + "/" + components[|components| - 1]
  }

  /** A name as the walk of a resolved directory yields it. */
  predicate Clean(name: string) {
    Shown(Target(name)) == name
  }

  // ---------------------------------------------------------------- what every moment keeps

  /** The files at the start, the FLACs to convert and the playlists found by the walk, and which
      playlist will be read without an error when which FLAC is converted. */
  datatype Library = Library(files: Files, eligible: set<string>, playlists: set<string>, opens: (string, string) -> bool) {
    ghost predicate Valid() {
      && (forall s :: s in eligible ==> IsFlac(s) && IsAbsolute(s) && Clean(s) && Named(s) in files && files[Named(s)].Audio?)
      && (forall m :: m in playlists ==> IsPlaylist(m) && Named(m) in files && files[Named(m)].Playlist?)
    }

    /** Whether the playlist's text is there to rewrite when the FLAC is converted. */
    predicate Reads(m: string, s: string) {
      Named(m) in files && files[Named(m)].Playlist? && files[Named(m)].readable && opens(m, s)
    }
  }

  /** The MP3 of a FLAC, linked under a name that was free, holds the FLAC's track. */
  ghost predicate Replaced(l: Library, fs: Files, s: string)
    requires l.Valid() && s in l.eligible
  {
    var mp3 := Named(Mp3Of(s));
    mp3 !in l.files && mp3 in fs && fs[mp3].Audio? && fs[mp3].track == l.files[Named(s)].track
  }

  ghost predicate Untouched(l: Library, fs: Files, s: string)
    requires l.Valid() && s in l.eligible
  {
    Named(s) in fs && fs[Named(s)] == l.files[Named(s)]
  }

  /** A line as it was, naming no FLAC that is gone, or rewritten for a FLAC that has its MP3; but when
      the playlist is not read for the FLAC it names, it stays as it was whatever becomes of the FLAC. */
  ghost predicate LineKept(l: Library, fs: Files, m: string, before: string, now: string)
    requires l.Valid()
  {
    var name := Refers(Parent(m), before);
    if name.Some? && name.value in l.eligible then
      if l.Reads(m, name.value) then
        (now == before && Untouched(l, fs, name.value))
        || (now == RewriteLine(Parent(m), before, name.value) && Replaced(l, fs, name.value))
      else now == before && (Untouched(l, fs, name.value) || Replaced(l, fs, name.value))
    else now == before
  }

  ghost predicate PlaylistKept(l: Library, fs: Files, m: string)
    requires l.Valid() && m in l.playlists
  {
    && Named(m) in fs && fs[Named(m)].Playlist?
    && var before, now := l.files[Named(m)], fs[Named(m)];
      now.readable == before.readable && |now.lines| == |before.lines|
      && forall i :: 0 <= i < |now.lines| ==> LineKept(l, fs, m, before.lines[i], now.lines[i])
  }

  ghost predicate Safe(l: Library, fs: Files)
    requires l.Valid()
  {
    && (forall s :: s in l.eligible ==> Untouched(l, fs, s) || Replaced(l, fs, s))
    && (forall p :: p in l.files && p.Named? && p.name !in l.eligible && p.name !in l.playlists ==> p in fs && fs[p] == l.files[p])
    && (forall m :: m in l.playlists ==> PlaylistKept(l, fs, m))
  }

  /** At a safe moment every eligible track exists, as its FLAC or as its linked MP3. */
  lemma TracksExist(l: Library, fs: Files, s: string)
    requires l.Valid() && Safe(l, fs) && s in l.eligible
    ensures exists p :: p in {Named(s), Named(Mp3Of(s))} && p in fs && fs[p].Audio? && fs[p].track == l.files[Named(s)].track
  {
    if Untouched(l, fs, s) {
      assert Named(s) in fs;
    } else {
      assert Named(Mp3Of(s)) in fs;
    }
  }

  /** At a safe moment no MP3 of the start is overwritten or gone. */
  lemma Mp3sUntouched(l: Library, fs: Files, name: string)
    requires l.Valid() && Safe(l, fs) && EndsWith(name, ".mp3") && Named(name) in l.files
    ensures Named(name) in fs && fs[Named(name)] == l.files[Named(name)]
  {
    Mp3Chars(name);
  }

  lemma Mp3Chars(name: string)
    requires EndsWith(name, ".mp3")
    ensures EndsInThree(name) && !IsFlac(name) && !IsPlaylist(name)
  {
    var n := |name|;
    assert Lower(name[n - 4 + 3]) == ".mp3"[3];
    assert Lower(name[n - 4 + 2]) == ".mp3"[2];
    NotFlac(Some(name));
    PlaylistChars(name);
  }

  lemma PlaylistChars(name: string)
    requires name != ""
    ensures IsPlaylist(name) ==> name[|name| - 1] in {'u', 'U', '8'}
  {
    var n := |name|;
    if EndsWith(name, ".m3u") {
      assert Lower(name[n - 4 + 3]) == ".m3u"[3];
    }
    if EndsWith(name, ".m3u8") {
      assert Lower(name[n - 5 + 4]) == ".m3u8"[4];
    }
  }

  /** At a safe moment a line that referred to an existing file refers to one.  If the file is a FLAC to
      convert, this asks for a plain line where the playlist is read for it, and for a FLAC that is not
      gone yet where it is not. */
  lemma ReferencesResolve(l: Library, fs: Files, m: string, i: nat)
    requires l.Valid() && Safe(l, fs) && m in l.playlists && i < |l.files[Named(m)].lines|
    requires var name := Refers(Parent(m), l.files[Named(m)].lines[i]);
             && name.Some? && Named(name.value) in l.files
             && (name.value in l.eligible ==>
                   if l.Reads(m, name.value) then Plain(l.files[Named(m)].lines[i]) else Untouched(l, fs, name.value))
    ensures var now := fs[Named(m)];
            now.Playlist? && i < |now.lines|
            && Refers(Parent(m), now.lines[i]).Some? && Named(Refers(Parent(m), now.lines[i]).value) in fs
  {
    hide Refers, RewriteLine, Plain, Parent, IsFlac, IsPlaylist;
    assert PlaylistKept(l, fs, m);
    var before, now := l.files[Named(m)].lines[i], fs[Named(m)].lines[i];
    assert LineKept(l, fs, m, before, now);
    var name := Refers(Parent(m), before).value;
    if name in l.eligible {
      RewriteRefers(Parent(m), before, name);
    } else if name in l.playlists {
      assert PlaylistKept(l, fs, name);
    }
  }

  /** Once a FLAC is gone, a line that named it refers to its MP3 exactly when the playlist was read for
      that FLAC and the line is plain; when the playlist was not read, the line still names the FLAC. */
  lemma ReferenceSurvives(l: Library, fs: Files, m: string, i: nat, s: string)
    requires l.Valid() && Safe(l, fs) && m in l.playlists && i < |l.files[Named(m)].lines|
    requires s in l.eligible && Refers(Parent(m), l.files[Named(m)].lines[i]) == Some(s) && Named(s) !in fs
    ensures Named(Mp3Of(s)) in fs && fs[Named(m)].Playlist? && i < |fs[Named(m)].lines|
    ensures Refers(Parent(m), fs[Named(m)].lines[i]) == Some(Mp3Of(s)) <==> l.Reads(m, s) && Plain(l.files[Named(m)].lines[i])
    ensures !l.Reads(m, s) ==> Refers(Parent(m), fs[Named(m)].lines[i]) == Some(s)
  {
    hide Refers, RewriteLine, Plain, Parent, IsFlac, IsPlaylist;
    assert PlaylistKept(l, fs, m);
    var before, now := l.files[Named(m)].lines[i], fs[Named(m)].lines[i];
    assert LineKept(l, fs, m, before, now);
    RewriteRefers(Parent(m), before, s);
    MP3Ends(s);
  }

  // ---------------------------------------------------------------- references that lead to a FLAC

  function Backslashes(s: string): nat {
    if s == "" then 0 else Backslashes(s[..|s| - 1]) + (if s[|s| - 1] == '\\' then 1 else 0)
  }

  function BackslashesOf(components: seq<string>): nat {
    if components == [] then 0
    else BackslashesOf(components[..|components| - 1]) + Backslashes(components[|components| - 1])
  }

  function BackslashesIn(walk: (seq<string>, string)): nat {
    BackslashesOf(walk.0) + Backslashes(walk.1)
  }

  lemma {:induction false} BackslashesJoined(a: string, b: string)
    ensures Backslashes(a + b) == Backslashes(a) + Backslashes(b)
    ensures '\\' in b <==> Backslashes(b) > 0
  {
    if b == "" {
      assert a + b == a;
    } else {
      BackslashesJoined(a, b[..|b| - 1]);
      assert (a + b)[..|a + b| - 1] == a + b[..|b| - 1];
      assert b == b[..|b| - 1] + [b[|b| - 1]];
    }
  }

  lemma {:induction false} BackslashesShown(components: seq<string>)
    ensures Backslashes(Shown(components)) == BackslashesOf(components)
  {
    if components != [] {
      var init, last := components[..|components| - 1], components[|components| - 1];
      BackslashesShown(init);
      BackslashesJoined(Shown(init) + "/", last);
      BackslashesJoined(Shown(init), "/");
    }
  }

  lemma PushLoses(above: seq<string>, component: string)
    ensures BackslashesOf(Push(above, component)) <= BackslashesOf(above) + Backslashes(component)
  {
    assert (above + [component])[..|above|] == above;
  }

  /** Walking on through text without a backslash adds none. */
  lemma {:induction false} WalkOn(name: string, rest: string)
    requires '\\' !in rest
    ensures BackslashesIn(Walk(name + rest)) <= BackslashesIn(Walk(name))
  {
    if rest == "" {
      assert name + rest == name;
    } else {
      var init, c := rest[..|rest| - 1], rest[|rest| - 1];
      assert c in rest;
      WalkOn(name, init);
      assert (name + rest)[..|name + rest| - 1] == name + init;
      var (above, component) := Walk(name + init);
      PushLoses(above, component);
      BackslashesJoined(component, [c]);
    }
  }

  lemma {:induction false} WalkLoses(name: string)
    ensures BackslashesIn(Walk(name)) <= Backslashes(name)
  {
    if name != "" {
      var init, c := name[..|name| - 1], name[|name| - 1];
      WalkLoses(init);
      PushLoses(Walk(init).0, Walk(init).1);
      BackslashesJoined(Walk(init).1, [c]);
    }
  }

  /** A name whose end had its backslashes turned into separators leads elsewhere. */
  lemma SlashedElsewhere(prefix: string, rest: string, from: string)
    requires Clean(prefix + rest) && '\\' in rest && from in {"", prefix}
    ensures Target(from + Slashes(rest)) != Target(prefix + rest)
  {
    hide Walk, Push, Shown, Slashes;
    BackslashesShown(Target(prefix + rest));
    BackslashesJoined(prefix, rest);
    SlashesAt(rest);
    WalkOn(from, Slashes(rest));
    WalkLoses(from);
    PushLoses(Walk(from + Slashes(rest)).0, Walk(from + Slashes(rest)).1);
  }

  lemma {:induction false} WalkTail(name: string, tail: string)
    requires '/' !in tail
    ensures Walk(name + tail) == (Walk(name).0, Walk(name).1 + tail)
  {
    if tail == "" {
      assert name + tail == name && Walk(name).1 + tail == Walk(name).1;
    } else {
      var init, c := tail[..|tail| - 1], tail[|tail| - 1];
      assert c in tail;
      WalkTail(name, init);
      assert (name + tail)[..|name + tail| - 1] == name + init;
      assert Walk(name).1 + init + [c] == Walk(name).1 + tail;
    }
  }

  lemma Mp3Clean(source: string)
    requires IsFlac(source) && Clean(source)
    ensures Clean(Mp3Of(source)) && Target(Mp3Of(source)) != Target(source)
  {
    hide Walk, IsFlac, EndsWith, Lower, Backslashes;
    FlacChars(source);
    MP3Ends(source);
    var n := |source|;
    var stem, tail := source[..n - 4], source[n - 4..];
    assert source == stem + tail && tail == [source[n - 4], source[n - 3], source[n - 2], source[n - 1]];
    WalkTail(stem, tail);
    WalkTail(stem, "mp3");
    var (above, component) := Walk(stem);
    assert Target(source) == above + [component + tail] && Target(Mp3Of(source)) == above + [component + "mp3"];
    assert (above + [component + tail])[..|above|] == above && (above + [component + "mp3"])[..|above|] == above;
    assert Shown(above) + "/" + component + tail == stem + tail;
    SameEnd(Shown(above) + "/" + component, stem, tail);
    assert Shown(above) + "/" + (component + "mp3") == Shown(above) + "/" + component + "mp3";
    assert |component + tail| != |component + "mp3"|;
    assert Target(source)[|above|] != Target(Mp3Of(source))[|above|];
  }

  lemma SameEnd(a: string, b: string, tail: string)
    requires a + tail == b + tail
    ensures a == b
  {
    assert |a + tail| == |b + tail|;
    assert (a + tail)[..|a|] == a && (b + tail)[..|b|] == b;
  }

  /** Once a FLAC is gone, a line that led to it, by whatever name, leads to its MP3 exactly when the
      name was the FLAC's own, the playlist was read for that FLAC and the line is plain. */
  lemma TargetSurvives(l: Library, fs: Files, m: string, i: nat, s: string)
    requires l.Valid() && Safe(l, fs) && m in l.playlists && i < |l.files[Named(m)].lines| && s in l.eligible && Named(s) !in fs
    requires var name := Refers(Parent(m), l.files[Named(m)].lines[i]);
             name.Some? && Target(name.value) == Target(s)
    ensures fs[Named(m)].Playlist? && i < |fs[Named(m)].lines| && Refers(Parent(m), fs[Named(m)].lines[i]).Some?
    ensures Target(Refers(Parent(m), fs[Named(m)].lines[i]).value) == Target(Mp3Of(s)) <==>
            && Refers(Parent(m), l.files[Named(m)].lines[i]) == Some(s)
            && l.Reads(m, s) && Plain(l.files[Named(m)].lines[i])
  {
    hide Refers, RewriteLine, Plain, Parent, IsFlac, IsPlaylist, Target, Mp3Of, Shown;
    assert PlaylistKept(l, fs, m);
    var before, now := l.files[Named(m)].lines[i], fs[Named(m)].lines[i];
    assert LineKept(l, fs, m, before, now);
    Mp3Clean(s);
    var name := Refers(Parent(m), before).value;
    if name == s {
      RewriteElsewhere(Parent(m), before, s);
    } else {
      CleanNames(l, name, s);
    }
  }

  lemma CleanNames(l: Library, name: string, s: string)
    requires l.Valid() && s in l.eligible && Target(name) == Target(s) && name != s
    ensures name !in l.eligible
  {
    hide Target;
  }

  lemma SlashesTrimmed(t: string, rest: string)
    requires Trimmed(t) && |t| > 4 && rest == t[..|t| - 4] + "mp3"
    ensures Trim(Slashes(rest)) == Slashes(rest)
  {
    SlashesAt(rest);
    assert Trimmed(Slashes(rest));
  }

  /** A rewritten line leads to the MP3 exactly when it refers to it. */
  lemma RewriteElsewhere(dir: string, line: string, source: string)
    requires IsFlac(source) && IsAbsolute(source) && Clean(source) && Refers(dir, line) == Some(source)
    ensures Refers(dir, RewriteLine(dir, line, source)).Some?
    ensures Target(Refers(dir, RewriteLine(dir, line, source)).value) == Target(Mp3Of(source)) <==> Plain(line)
  {
    hide Target, Clean, IsFlac, Walk, Shown, EndsWith, IsSpace;
    RewriteRefers(dir, line, source);
    if !Plain(line) {
      var t := Trim(line);
      JoinPrefix(dir, t);
      Mp3Clean(source);
      var prefix := Join(dir, "");
      RelativeFlac(prefix, t, source);
      BackslashInStem(t, source);
      var rest := t[..|t| - 4] + "mp3";
      SlashesTrimmed(t, rest);
      assert Below(dir, Mp3Of(source)) == Some(rest);
      SlashedElsewhere(prefix, rest, "");
      SlashedElsewhere(prefix, rest, prefix);
      JoinPrefix(dir, Slashes(rest));
      assert "" + Slashes(rest) == Slashes(rest);
    }
  }

  // ---------------------------------------------------------------- the steps

  /** Scratch files play no part. */
  lemma ScratchSafe(l: Library, fs: Files, gs: Files)
    requires l.Valid() && Safe(l, fs)
    requires forall p: Path :: p.Named? ==> (p in fs <==> p in gs) && (p in fs ==> fs[p] == gs[p])
    ensures Safe(l, gs)
  {
    forall m | m in l.playlists ensures PlaylistKept(l, gs, m) {
      assert PlaylistKept(l, fs, m);
      forall i | 0 <= i < |fs[Named(m)].lines|
        ensures LineKept(l, gs, m, l.files[Named(m)].lines[i], gs[Named(m)].lines[i])
      {
        assert LineKept(l, fs, m, l.files[Named(m)].lines[i], fs[Named(m)].lines[i]);
      }
    }
  }

  /** A line stays kept when the files grow, or lose a FLAC that has its MP3 and that the line does not
      name, or names in a playlist that is not read for it. */
  lemma LineStays(l: Library, fs: Files, gs: Files, m: string, before: string, now: string)
    requires l.Valid() && LineKept(l, fs, m, before, now)
    requires forall s :: s in l.eligible && Replaced(l, fs, s) ==> Replaced(l, gs, s)
    requires forall s :: s in l.eligible && Untouched(l, fs, s) ==>
               Untouched(l, gs, s) || (Replaced(l, gs, s) && (Refers(Parent(m), now) == Some(s) ==> !l.Reads(m, s)))
    ensures LineKept(l, gs, m, before, now)
  {
    hide Refers, RewriteLine;
  }

  /** Linking the MP3 under a free name. */
  lemma LinkSafe(l: Library, fs: Files, s: string, size: nat)
    requires l.Valid() && Safe(l, fs) && s in l.eligible && Named(Mp3Of(s)) !in fs
    ensures var gs := fs[Named(Mp3Of(s)) := Audio(l.files[Named(s)].track, size)];
            Safe(l, gs) && Replaced(l, gs, s)
  {
    var gs := fs[Named(Mp3Of(s)) := Audio(l.files[Named(s)].track, size)];
    MP3Ends(s);
    Mp3Chars(Mp3Of(s));
    assert Named(Mp3Of(s)) !in l.files;
    forall e | e in l.eligible ensures (Untouched(l, fs, e) ==> Untouched(l, gs, e)) && (Replaced(l, fs, e) ==> Replaced(l, gs, e)) {
    }
    forall m | m in l.playlists ensures PlaylistKept(l, gs, m) {
      assert PlaylistKept(l, fs, m);
      forall i | 0 <= i < |fs[Named(m)].lines|
        ensures LineKept(l, gs, m, l.files[Named(m)].lines[i], gs[Named(m)].lines[i])
      {
        assert LineKept(l, fs, m, l.files[Named(m)].lines[i], fs[Named(m)].lines[i]);
        LineStays(l, fs, gs, m, l.files[Named(m)].lines[i], fs[Named(m)].lines[i]);
      }
      hide LineKept, Untouched, Replaced;
    }
    hide PlaylistKept, Mp3Of;
  }

  lemma LineRewritten(l: Library, fs: Files, m: string, before: string, now: string, s: string)
    requires l.Valid() && s in l.eligible && Replaced(l, fs, s) && LineKept(l, fs, m, before, now) && l.Reads(m, s)
    ensures LineKept(l, fs, m, before, RewriteLine(Parent(m), now, s))
    ensures Refers(Parent(m), RewriteLine(Parent(m), now, s)) != Some(s)
  {
    var name := Refers(Parent(m), before);
    if name.Some? && name.value in l.eligible {
      RewriteRefers(Parent(m), before, name.value);
    }
    hide Refers, Replaced, Untouched, IsFlac;
  }

  /** Replacing one playlist that was read by its rewritten form. */
  lemma RenameSafe(l: Library, fs: Files, m: string, s: string)
    requires l.Valid() && Safe(l, fs) && s in l.eligible && Replaced(l, fs, s) && m in l.playlists && l.Reads(m, s)
    ensures var lines := RewriteLines(Parent(m), fs[Named(m)].lines, s);
            Safe(l, fs[Named(m) := Playlist(true, lines)]) && Replaced(l, fs[Named(m) := Playlist(true, lines)], s)
            && forall i :: 0 <= i < |lines| ==> Refers(Parent(m), lines[i]) != Some(s)
  {
    assert PlaylistKept(l, fs, m);
    var dir, old', lines := Parent(m), fs[Named(m)].lines, RewriteLines(Parent(m), fs[Named(m)].lines, s);
    var gs := fs[Named(m) := Playlist(true, lines)];
    forall i | 0 <= i < |lines|
      ensures Refers(dir, lines[i]) != Some(s) && LineKept(l, fs, m, l.files[Named(m)].lines[i], lines[i])
    {
      assert LineKept(l, fs, m, l.files[Named(m)].lines[i], old'[i]);
      LineRewritten(l, fs, m, l.files[Named(m)].lines[i], old'[i], s);
    }
    hide Refers, RewriteLine;
    MP3Ends(s);
    Mp3Chars(Mp3Of(s));
    SameNames(l, fs, gs, m);
  }

  lemma SameNames(l: Library, fs: Files, gs: Files, m: string)
    requires l.Valid() && Safe(l, fs) && m in l.playlists && Named(m) in gs && gs == fs[Named(m) := gs[Named(m)]]
    requires gs[Named(m)].Playlist? && gs[Named(m)].readable && l.files[Named(m)].readable
    requires |gs[Named(m)].lines| == |l.files[Named(m)].lines|
    requires forall i :: 0 <= i < |gs[Named(m)].lines| ==>
                           LineKept(l, fs, m, l.files[Named(m)].lines[i], gs[Named(m)].lines[i])
    ensures Safe(l, gs)
  {
    forall s | s in l.eligible
      ensures Untouched(l, gs, s) <==> Untouched(l, fs, s)
      ensures Replaced(l, gs, s) <==> Replaced(l, fs, s)
    {
      MP3Ends(s);
      Mp3Chars(Mp3Of(s));
      FlacChars(s);
      PlaylistChars(s);
    }
    forall n, before, now | LineKept(l, fs, n, before, now) ensures LineKept(l, gs, n, before, now) {
    }
    forall p | p in l.playlists ensures PlaylistKept(l, gs, p) {
      assert PlaylistKept(l, fs, p);
      hide LineKept;
    }
    hide Untouched, Replaced, PlaylistKept;
  }

  /** Removing a FLAC that has its MP3 and that no playlist read for it names any more. */
  lemma RemoveSafe(l: Library, fs: Files, s: string)
    requires l.Valid() && Safe(l, fs) && s in l.eligible && Replaced(l, fs, s)
    requires forall m, i :: m in l.playlists && l.Reads(m, s) && fs[Named(m)].Playlist? && 0 <= i < |fs[Named(m)].lines| ==>
                              Refers(Parent(m), fs[Named(m)].lines[i]) != Some(s)
    ensures Safe(l, fs - {Named(s)})
  {
    var gs := fs - {Named(s)};
    FlacChars(s);
    PlaylistChars(s);
    forall e | e in l.eligible
      ensures Replaced(l, fs, e) ==> Replaced(l, gs, e)
      ensures e != s && Untouched(l, fs, e) ==> Untouched(l, gs, e)
    {
      MP3Ends(e);
    }
    forall m | m in l.playlists ensures PlaylistKept(l, gs, m) {
      assert PlaylistKept(l, fs, m);
      forall i | 0 <= i < |fs[Named(m)].lines|
        ensures LineKept(l, gs, m, l.files[Named(m)].lines[i], gs[Named(m)].lines[i])
      {
        LineStays(l, fs, gs, m, l.files[Named(m)].lines[i], fs[Named(m)].lines[i]);
      }
      hide LineKept, Replaced, Untouched, Refers;
    }
    hide PlaylistKept, Mp3Of, Refers;
  }

  // ---------------------------------------------------------------- the run

  /** The disk, with every state it has been in.  The operations that `faults` picks out by their
      number fail and then change nothing; so do the reads of playlists that `opens` does not grant. */
  class Disk {
    var files: Files
    var scratch: nat
    var steps: nat
    const faults: nat -> bool
    const opens: (string, string) -> bool
    ghost const library: Library
    ghost var trace: seq<Files>
    /** How many operations other than reads have failed. */
    ghost var failures: nat

    /** Every state so far is safe: a process that stops leaves one of them. */
    ghost predicate Valid()
      reads this
    {
      && library.Valid() && library.opens == opens
      && (forall i :: 0 <= i < |trace| ==> Safe(library, trace[i]))
      && trace != [] && trace[|trace| - 1] == files
      && (failures > 0 ==> exists n :: faults(n))
    }

    constructor (files: Files, faults: nat -> bool, opens: (string, string) -> bool, ghost library: Library)
      requires library.Valid() && library.files == files && library.opens == opens
      ensures Valid() && this.files == files && this.library == library && trace == [files] && failures == 0
      ensures this.faults == faults && this.opens == opens
    {
      this.files, this.library, trace, scratch, failures := files, library, [files], 0, 0;
      this.faults, this.opens, steps := faults, opens, 0;
      new;
      forall m | m in library.playlists ensures PlaylistKept(library, files, m) {
      }
    }

    /** Whether the next operation goes well. */
    method Attempt() returns (ok: bool)
      requires Valid()
      modifies this`steps, this`failures
      ensures Valid() && failures == old(failures) + (if ok then 0 else 1)
    {
      ok := !faults(steps);
      if !ok {
        failures := failures + 1;
      }
      steps := steps + 1;
    }

    /** The text of a playlist, if it can be read. */
    method ReadList(m: string, source: string) returns (lines: Option<seq<string>>)
      requires Valid() && m in library.playlists && PlaylistKept(library, files, m)
      ensures lines == if library.Reads(m, source) then Some(files[Named(m)].lines) else None
    {
      if Named(m) in files && files[Named(m)].readable && opens(m, source) {
        return Some(files[Named(m)].lines);
      }
      return None;
    }

    method Put(p: Path, f: File) returns (ok: bool)
      requires Valid() && Safe(library, files[p := f])
      modifies this`files, this`trace, this`failures, this`steps
      ensures Valid() && old(trace) <= trace && failures == old(failures) + (if ok then 0 else 1)
      ensures files == if ok then old(files)[p := f] else old(files)
    {
      ok := Attempt();
      if ok {
        files := files[p := f];
        trace := trace + [files];
      }
    }

    method Remove(p: Path) returns (ok: bool)
      requires Valid() && Safe(library, files - {p})
      modifies this`files, this`trace, this`failures, this`steps
      ensures Valid() && old(trace) <= trace && failures == old(failures) + (if ok then 0 else 1)
      ensures files == if ok then old(files) - {p} else old(files)
    {
      ok := Attempt();
      if ok {
        files := files - {p};
        trace := trace + [files];
      }
    }

    /** Renaming over an existing file replaces it in one step. */
    method Rename(from: Path, to: Path) returns (ok: bool)
      requires Valid() && from in files && Safe(library, (files - {from})[to := files[from]])
      modifies this`files, this`trace, this`failures, this`steps
      ensures Valid() && old(trace) <= trace && failures == old(failures) + (if ok then 0 else 1)
      ensures files == if ok then (old(files) - {from})[to := old(files)[from]] else old(files)
    {
      ok := Attempt();
      if ok {
        files := (files - {from})[to := files[from]];
        trace := trace + [files];
      }
    }

    /** A name for a scratch file. */
    method Fresh() returns (n: nat)
      modifies this`scratch
    {
      n := scratch;
      scratch := scratch + 1;
    }
  }

  /** Two states of the files that differ in scratch files and playlists only. */
  ghost predicate SameButLists(a: Files, b: Files) {
    forall p: Path :: p.Named? && !IsPlaylist(p.name) ==> (p in a <==> p in b) && (p in a ==> a[p] == b[p])
  }

  /** No scratch file is left that was not there before, but for the given ones. */
  ghost predicate Tidy(a: Files, b: Files, left: set<Path>) {
    forall p: Path :: !p.Named? && p in b ==> p in a || p in left
  }

  lemma TidyThen(a: Files, b: Files, c: Files, left: set<Path>)
    requires Tidy(a, b, left) && Tidy(b, c, {})
    ensures Tidy(a, c, left)
  {
  }

  lemma TidyClean(a: Files, b: Files, temp: Path)
    ensures Tidy(a, b, {temp}) ==> Tidy(a, b - {temp}, {})
  {
  }

  lemma TidySame(a: Files)
    ensures Tidy(a, a, {})
  {
  }

  /** No playlist among the first `n` that is read for the FLAC names it. */
  ghost predicate Unnamed(l: Library, fs: Files, playlists: seq<string>, n: nat, s: string)
    requires n <= |playlists|
  {
    forall j, i :: 0 <= j < n && l.Reads(playlists[j], s)
                   && Named(playlists[j]) in fs && fs[Named(playlists[j])].Playlist? && 0 <= i < |fs[Named(playlists[j])].lines| ==>
                     Refers(Parent(playlists[j]), fs[Named(playlists[j])].lines[i]) != Some(s)
  }

  /** Rewrites the playlists one after the other, each through a scratch file that is renamed over it. */
  method RewriteReferences(disk: Disk, playlists: seq<string>, source: string) returns (ok: bool)
    requires disk.Valid() && source in disk.library.eligible && Replaced(disk.library, disk.files, source)
    requires forall m :: m in playlists <==> m in disk.library.playlists
    modifies disk
    ensures disk.Valid() && old(disk.trace) <= disk.trace
    ensures SameButLists(old(disk.files), disk.files) && Replaced(disk.library, disk.files, source)
    ensures ok ==> Unnamed(disk.library, disk.files, playlists, |playlists|, source)
    ensures disk.failures >= old(disk.failures) && (!ok ==> disk.failures > old(disk.failures))
    ensures ok ==> Tidy(old(disk.files), disk.files, {})
  {
    hide Refers, RewriteLine, Safe, Replaced, IsFlac, IsPlaylist, Tidy;
    TidySame(disk.files);
    var k := 0;
    while k < |playlists|
      invariant 0 <= k <= |playlists|
      invariant disk.Valid() && old(disk.trace) <= disk.trace
      invariant Tidy(old(disk.files), disk.files, {})
      invariant SameButLists(old(disk.files), disk.files) && Replaced(disk.library, disk.files, source)
      invariant Unnamed(disk.library, disk.files, playlists, k, source) && disk.failures >= old(disk.failures)
    {
      ghost var before := disk.files;
      ok := RewriteOne(disk, playlists, k, source);
      if !ok {
        return;
      }
      TidyThen(old(disk.files), before, disk.files, {});
      k := k + 1;
    }
    return true;
  }

  method RewriteTextLine(dir: string, line: string, source: string) returns (updated: string, changed: bool)
    requires IsFlac(source)
    ensures updated == RewriteLine(dir, line, source)
    ensures changed <==> Refers(dir, line) == Some(source)
  {
    var trimmed := Trim(line);
    if trimmed == "" || trimmed[0] == '#' {
      return line, false;
    }
    var resolved := if IsAbsolute(trimmed) then trimmed else Join(dir, trimmed);
    if resolved != source {
      return line, false;
    }
    if IsAbsolute(trimmed) {
      return Mp3Of(source), true;
    }
    var below := Below(dir, Mp3Of(source));
    return if below.Some? then Slashes(below.value) else Mp3Of(source), true;
  }

  /** The lines of one playlist, rewritten. */
  method RewriteText(dir: string, lines: seq<string>, source: string) returns (updated: seq<string>, changed: bool)
    requires IsFlac(source)
    ensures updated == RewriteLines(dir, lines, source)
    ensures changed <==> exists i :: 0 <= i < |lines| && Refers(dir, lines[i]) == Some(source)
  {
    hide Refers, RewriteLine, IsFlac;
    updated, changed := [], false;
    var i := 0;
    while i < |lines|
      invariant 0 <= i <= |lines| && |updated| == i
      invariant forall j :: 0 <= j < i ==> updated[j] == RewriteLine(dir, lines[j], source)
      invariant changed <==> exists j :: 0 <= j < i && Refers(dir, lines[j]) == Some(source)
    {
      var line, hit := RewriteTextLine(dir, lines[i], source);
      updated, changed := updated + [line], changed || hit;
      i := i + 1;
    }
  }

  method RewriteOne(disk: Disk, playlists: seq<string>, k: nat, source: string) returns (ok: bool)
    requires disk.Valid() && source in disk.library.eligible && Replaced(disk.library, disk.files, source)
    requires forall m :: m in playlists <==> m in disk.library.playlists
    requires k < |playlists| && Unnamed(disk.library, disk.files, playlists, k, source)
    modifies disk
    ensures disk.Valid() && old(disk.trace) <= disk.trace
    ensures SameButLists(old(disk.files), disk.files) && Replaced(disk.library, disk.files, source)
    ensures ok ==> Unnamed(disk.library, disk.files, playlists, k + 1, source)
    ensures disk.failures >= old(disk.failures) && (!ok ==> disk.failures > old(disk.failures))
    ensures ok ==> Tidy(old(disk.files), disk.files, {})
  {
    var m := playlists[k];
    ghost var before := disk.files;
    ListPresent(disk.library, before, m, source);
    TidySame(before);
    hide Refers, RewriteLine, Safe, Replaced, IsFlac, IsPlaylist, Unnamed, Tidy;
    var original := disk.ReadList(m, source);
    if original.None? {
      UnnamedNext(disk.library, before, before, playlists, k, source);
      return true;
    }
    var updated, changed := RewriteText(Parent(m), original.value, source);
    if !changed {
      UnnamedNext(disk.library, before, before, playlists, k, source);
      return true;
    }
    ok := Replace(disk, m, updated, source);
    ListChanged(disk.library, before, disk.files, playlists, k, source, if ok then Playlist(true, updated) else before[Named(m)]);
    hide ListIs, SameButLists;
  }

  /** Of the named files only the playlist may differ, and it holds the given text. */
  ghost predicate ListIs(a: Files, b: Files, m: string, text: File) {
    && Named(m) in b && b[Named(m)] == text
    && forall p: Path :: p.Named? && p != Named(m) ==> (p in a <==> p in b) && (p in a ==> a[p] == b[p])
  }

  lemma ListChanged(l: Library, a: Files, b: Files, playlists: seq<string>, k: nat, s: string, text: File)
    requires l.Valid() && Safe(l, a) && s in l.eligible && Replaced(l, a, s)
    requires k < |playlists| && playlists[k] in l.playlists && l.Reads(playlists[k], s) && Named(playlists[k]) in a && a[Named(playlists[k])].Playlist?
    requires ListIs(a, b, playlists[k], text) && Unnamed(l, a, playlists, k, s)
    ensures SameButLists(a, b)
    ensures text == Playlist(true, RewriteLines(Parent(playlists[k]), a[Named(playlists[k])].lines, s)) ==>
              Unnamed(l, b, playlists, k + 1, s)
  {
    ListPresent(l, a, playlists[k], s);
    assert SameButLists(a, b) by {
      hide IsPlaylist, Safe, Unnamed;
    }
    RenameSafe(l, a, playlists[k], s);
    if text == Playlist(true, RewriteLines(Parent(playlists[k]), a[Named(playlists[k])].lines, s)) {
      UnnamedNext(l, a, b, playlists, k, s);
    }
    hide Unnamed, SameButLists;
  }

  /** The new text goes to a scratch file, which is renamed over the playlist. */
  method Replace(disk: Disk, m: string, updated: seq<string>, source: string) returns (ok: bool)
    requires disk.Valid() && source in disk.library.eligible && Replaced(disk.library, disk.files, source)
    requires m in disk.library.playlists && Named(m) in disk.files && disk.files[Named(m)].Playlist? && disk.library.Reads(m, source)
    requires IsFlac(source) && updated == RewriteLines(Parent(m), disk.files[Named(m)].lines, source)
    modifies disk
    ensures disk.Valid() && old(disk.trace) <= disk.trace && Replaced(disk.library, disk.files, source)
    ensures ListIs(old(disk.files), disk.files, m, if ok then Playlist(true, updated) else old(disk.files)[Named(m)])
    ensures disk.failures >= old(disk.failures) && (!ok ==> disk.failures > old(disk.failures))
    ensures ok ==> Tidy(old(disk.files), disk.files, {})
  {
    hide Refers, RewriteLine, Safe, Replaced, IsFlac, IsPlaylist;
    ghost var before := disk.files;
    var n := disk.Fresh();
    var temp := ScratchList(n);
    Scratch(disk.library, before, temp, Playlist(true, updated), source);
    ok := disk.Put(temp, Playlist(true, updated));
    if !ok {
      return;
    }
    RenameSafe(disk.library, before, m, source);
    Scratch(disk.library, before[Named(m) := Playlist(true, updated)], temp, Playlist(true, updated), source);
    assert (disk.files - {temp})[Named(m) := Playlist(true, updated)] == before[Named(m) := Playlist(true, updated)] - {temp};
    ok := disk.Rename(temp, Named(m));
  }

  lemma ListPresent(l: Library, fs: Files, m: string, s: string)
    requires l.Valid() && Safe(l, fs) && m in l.playlists && s in l.eligible
    ensures PlaylistKept(l, fs, m) && Named(m) in fs && fs[Named(m)].Playlist? && IsPlaylist(m) && IsFlac(s) && !IsPlaylist(s)
    ensures IsFlac(s) && !IsPlaylist(Mp3Of(s)) && Mp3Of(s) != s
  {
    assert PlaylistKept(l, fs, m);
    FlacChars(s);
    PlaylistChars(s);
    MP3Ends(s);
    Mp3Chars(Mp3Of(s));
  }

  lemma Scratch(l: Library, fs: Files, p: Path, f: File, s: string)
    requires l.Valid() && Safe(l, fs) && !p.Named? && s in l.eligible
    ensures Safe(l, fs[p := f]) && (Replaced(l, fs[p := f], s) <==> Replaced(l, fs, s))
    ensures Safe(l, fs - {p}) && (Replaced(l, fs - {p}, s) <==> Replaced(l, fs, s))
  {
    ScratchSafe(l, fs, fs[p := f]);
    ScratchSafe(l, fs, fs - {p});
    hide Safe;
  }

  lemma UnnamedNext(l: Library, a: Files, b: Files, playlists: seq<string>, k: nat, s: string)
    requires k < |playlists| && Unnamed(l, a, playlists, k, s)
    requires forall j :: 0 <= j < k && playlists[j] != playlists[k] ==>
               (Named(playlists[j]) in b ==> Named(playlists[j]) in a && b[Named(playlists[j])] == a[Named(playlists[j])])
    requires var m := Named(playlists[k]);
             l.Reads(playlists[k], s) && m in b && b[m].Playlist? ==>
               forall i :: 0 <= i < |b[m].lines| ==> Refers(Parent(playlists[k]), b[m].lines[i]) != Some(s)
    ensures Unnamed(l, b, playlists, k + 1, s)
  {
    hide Refers;
  }

  datatype Outcome = Converted(saved: int) | Skipped | Failed

  datatype Result = Result(eligible: nat, converted: nat, skipped: nat, bytesSaved: int, failures: seq<string>)

  /** A conversion touches the FLAC, its free MP3 name, playlists and scratch files only; it removes
      the FLAC exactly when it says what it saved. */
  ghost predicate ConvertOk(s: string, a: Files, b: Files, saved: Option<int>) {
    && (forall p: Path :: p.Named? && !IsPlaylist(p.name) && p.name != s && p in a ==> p in b && b[p] == a[p])
    && (forall p: Path :: p.Named? && !IsPlaylist(p.name) && p in b && p !in a ==> IsFlac(s) && p.name == Mp3Of(s))
    && (saved.None? && Named(s) in a ==> Named(s) in b && b[Named(s)] == a[Named(s)])
    && (saved.Some? ==>
          && IsFlac(s) && Named(s) in a && Named(s) !in b
          && Named(Mp3Of(s)) !in a && Named(Mp3Of(s)) in b && b[Named(Mp3Of(s))].Audio? && a[Named(s)].Audio?
          && b[Named(Mp3Of(s))].track == a[Named(s)].track
          && saved.value == a[Named(s)].size - b[Named(Mp3Of(s))].size > 0)
  }

  /** The files once the MP3 of `s` is linked, up to scratch files and playlists. */
  ghost predicate LinkedState(s: string, a: Files, b: Files, size: nat) {
    && IsFlac(s) && Named(s) in a && a[Named(s)].Audio? && Named(Mp3Of(s)) !in a
    && Named(Mp3Of(s)) in b && b[Named(Mp3Of(s))] == Audio(a[Named(s)].track, size)
    && (forall p: Path :: p.Named? && !IsPlaylist(p.name) && p.name != Mp3Of(s) ==> (p in a <==> p in b) && (p in a ==> a[p] == b[p]))
  }

  lemma NothingDone(s: string, a: Files, b: Files)
    requires SameButLists(a, b) && !IsPlaylist(s) && (forall p: Path :: p.Named? && IsFlac(p.name) ==> !IsPlaylist(p.name))
    ensures ConvertOk(s, a, b, None)
  {
    hide IsFlac, IsPlaylist;
  }

  lemma FlacIsNoPlaylist()
    ensures forall p: Path :: p.Named? && IsFlac(p.name) ==> !IsPlaylist(p.name)
  {
    forall p: Path | p.Named? && IsFlac(p.name) ensures !IsPlaylist(p.name) {
      FlacChars(p.name);
      PlaylistChars(p.name);
    }
  }

  lemma LinkedDone(s: string, a: Files, b: Files, size: nat)
    requires LinkedState(s, a, b, size) && size < a[Named(s)].size
    ensures ConvertOk(s, a, b, None)
    ensures ConvertOk(s, a, b - {Named(s)}, Some(a[Named(s)].size - size))
  {
    FlacIsNoPlaylist();
    MP3Ends(s);
    Mp3Chars(Mp3Of(s));
    hide IsPlaylist, IsFlac, Mp3Of;
  }

  lemma LinkedStays(s: string, a: Files, b: Files, c: Files, size: nat)
    requires LinkedState(s, a, b, size) && SameButLists(b, c)
    ensures LinkedState(s, a, c, size)
  {
    MP3Ends(s);
    Mp3Chars(Mp3Of(s));
    hide IsPlaylist, IsFlac, Mp3Of;
  }

  /** What the encoder makes of a track: an MP3 of it, or a failure that may leave anything behind. */
  datatype Encoding = Encoded(size: nat) | Refused(left: File)

  predicate Smaller(e: Encoding, size: nat) {
    e.Encoded? && 0 < e.size < size
  }

  /** One FLAC, up to the removal of its scratch MP3.  Unless an operation fails, it is converted exactly
      when the MP3 is smaller and its name is free. */
  method Convert(disk: Disk, playlists: seq<string>, source: string, temp: Path, encode: int -> Encoding)
      returns (saved: Option<int>)
    requires disk.Valid() && source in disk.library.eligible && temp.ScratchAudio?
    requires Untouched(disk.library, disk.files, source)
    requires forall m :: m in playlists <==> m in disk.library.playlists
    modifies disk
    ensures disk.Valid() && old(disk.trace) <= disk.trace
    ensures ConvertOk(source, old(disk.files), disk.files, saved)
    ensures disk.failures >= old(disk.failures)
    ensures Deserved(source, old(disk.files), disk.files, saved, encode, disk.failures - old(disk.failures))
    ensures disk.failures == old(disk.failures) ==> Tidy(old(disk.files), disk.files, {temp})
  {
    ghost var before := disk.files;
    ghost var l := disk.library;
    FlacIsNoPlaylist();
    hide Safe, Replaced, IsFlac, IsPlaylist, ConvertOk;
    NothingDone(source, before, before);
    ListsSame(before);
    var original := disk.files[Named(source)];
    var outcome := encode(original.track);
    var product := if outcome.Encoded? then Audio(original.track, outcome.size) else outcome.left;
    Scratch(l, before, temp, product, source);
    var written := disk.Put(temp, product);
    NothingDone(source, before, disk.files);
    if !written || outcome.Refused? || outcome.size == 0 || outcome.size >= original.size {
      return None;
    }
    var unchanged' := disk.Attempt();
    if !unchanged' {
      return None;
    }
    ghost var scratched := disk.files;
    saved := LinkAndRemove(disk, playlists, source, before, original, outcome.size);
    if disk.failures == old(disk.failures) {
      TidyThen(before, scratched, disk.files, {temp});
    }
  }

  /** A conversion that saved something had a smaller MP3; one that did not, although nothing failed,
      left the files as they were because the MP3 was not smaller or its name was taken. */
  ghost predicate Deserved(s: string, a: Files, b: Files, saved: Option<int>, encode: int -> Encoding, failed: int) {
    && failed >= 0 && IsFlac(s) && Named(s) in a && a[Named(s)].Audio?
    && var e, size := encode(a[Named(s)].track), a[Named(s)].size;
      if saved.Some? then Smaller(e, size) && saved.value == size - e.size
      else failed == 0 ==> SameButLists(a, b) && (!Smaller(e, size) || Named(Mp3Of(s)) in a)
  }

  lemma ListsSame(fs: Files)
    ensures SameButLists(fs, fs)
  {
  }

  /** From a checked scratch MP3 on. */
  method LinkAndRemove(disk: Disk, playlists: seq<string>, source: string, ghost before: Files, original: File, size: nat)
      returns (saved: Option<int>)
    requires disk.Valid() && source in disk.library.eligible && IsFlac(source)
    requires Untouched(disk.library, before, source) && original == before[Named(source)] && size < original.size
    requires SameButLists(before, disk.files) && ConvertOk(source, before, disk.files, None)
    requires forall m :: m in playlists <==> m in disk.library.playlists
    modifies disk
    ensures disk.Valid() && old(disk.trace) <= disk.trace
    ensures ConvertOk(source, before, disk.files, saved)
    ensures disk.failures >= old(disk.failures) && (saved.Some? ==> saved.value == original.size - size)
    ensures saved.None? && disk.failures == old(disk.failures) ==> SameButLists(before, disk.files) && Named(Mp3Of(source)) in before
    ensures disk.failures == old(disk.failures) ==> Tidy(old(disk.files), disk.files, {})
  {
    ghost var l := disk.library;
    MP3Ends(source);
    Mp3Chars(Mp3Of(source));
    TidySame(disk.files);
    hide Safe, Replaced, IsFlac, IsPlaylist, ConvertOk;
    var destination := Named(Mp3Of(source));
    if destination in disk.files {
      return None;
    }
    LinkSafe(l, disk.files, source, size);
    var ok := disk.Put(destination, Audio(original.track, size));
    if !ok {
      return None;
    }
    ghost var linked := disk.files;
    assert LinkedState(source, before, linked, size);
    assert Tidy(old(disk.files), linked, {});
    hide Mp3Of, LinkedState, SameButLists;
    ok := RewriteReferences(disk, playlists, source);
    LinkedStays(source, before, linked, disk.files, size);
    LinkedDone(source, before, disk.files, size);
    if !ok {
      return None;
    }
    TidyThen(old(disk.files), linked, disk.files, {});
    NamedNowhere(l, disk.files, playlists, source);
    var removed := disk.Remove(Named(source));
    if !removed {
      return None;
    }
    return Some(original.size - size);
  }

  lemma NamedNowhere(l: Library, fs: Files, playlists: seq<string>, s: string)
    requires l.Valid() && Safe(l, fs) && s in l.eligible && Replaced(l, fs, s)
    requires (forall m :: m in playlists <==> m in l.playlists) && Unnamed(l, fs, playlists, |playlists|, s)
    ensures Safe(l, fs - {Named(s)})
  {
    forall m, i | m in l.playlists && l.Reads(m, s) && fs[Named(m)].Playlist? && 0 <= i < |fs[Named(m)].lines|
      ensures Refers(Parent(m), fs[Named(m)].lines[i]) != Some(s)
    {
      assert PlaylistKept(l, fs, m);
      var j :| 0 <= j < |playlists| && playlists[j] == m;
      hide Refers;
    }
    RemoveSafe(l, fs, s);
  }

  // ---------------------------------------------------------------- the whole library

  datatype Totals = Totals(converted: nat, skipped: nat, failed: nat, saved: int)

  function Tally(outcomes: seq<Outcome>): Totals {
    if outcomes == [] then Totals(0, 0, 0, 0) else Counted(Tally(outcomes[..|outcomes| - 1]), outcomes[|outcomes| - 1])
  }

  function Counted(t: Totals, o: Outcome): Totals {
    match o
    case Converted(saved) => t.(converted := t.converted + 1, saved := t.saved + saved)
    case Skipped => t.(skipped := t.skipped + 1)
    case Failed => t.(failed := t.failed + 1)
  }

  lemma TallySnoc(outcomes: seq<Outcome>, o: Outcome)
    ensures Tally(outcomes + [o]) == Counted(Tally(outcomes), o)
  {
    assert (outcomes + [o])[..|outcomes|] == outcomes;
  }

  /** A FLAC is gone exactly when its outcome says that it was converted, and then its MP3 holds it. */
  ghost predicate OutcomeOk(a: Files, b: Files, s: string, o: Outcome) {
    match o
    case Converted(saved) =>
      && IsFlac(s) && Named(s) in a && Named(s) !in b && a[Named(s)].Audio?
      && Named(Mp3Of(s)) !in a && Named(Mp3Of(s)) in b && b[Named(Mp3Of(s))].Audio?
      && b[Named(Mp3Of(s))].track == a[Named(s)].track
      && saved == a[Named(s)].size - b[Named(Mp3Of(s))].size > 0
    case _ => Named(s) in b && Named(s) in a && b[Named(s)] == a[Named(s)]
  }

  /** What the next conversion does leaves the outcomes so far and the FLACs to come as they are. */
  lemma OutcomesStay(start: Files, a: Files, b: Files, s: string, saved: Option<int>, e: string, o: Outcome)
    requires ConvertOk(s, a, b, saved) && OutcomeOk(start, a, e, o) && e != s && IsFlac(e)
    ensures OutcomeOk(start, b, e, o)
  {
    MP3Ends(e);
    Mp3Chars(Mp3Of(e));
    FlacIsNoPlaylist();
    if IsFlac(s) {
      MP3Ends(s);
      Mp3Chars(Mp3Of(s));
    }
    hide IsPlaylist, Mp3Of;
  }

  /** The FLACs so far have their outcomes, and those to come are as they were. */
  ghost predicate AllOutcomes(start: Files, fs: Files, eligible: seq<string>, outcomes: seq<Outcome>) {
    && |outcomes| <= |eligible|
    && (forall i :: 0 <= i < |eligible| ==> OutcomeOk(start, fs, eligible[i], if i < |outcomes| then outcomes[i] else Skipped))
  }

  /** The MP3 name of a FLAC was taken at the start or by an earlier FLAC of the list. */
  ghost predicate Taken(start: Files, eligible: seq<string>, outcomes: seq<Outcome>, n: nat, name: string)
    requires n <= |eligible| && n <= |outcomes| && forall i :: 0 <= i < |eligible| ==> IsFlac(eligible[i])
  {
    Named(name) in start || exists j :: 0 <= j < n && outcomes[j].Converted? && Mp3Of(eligible[j]) == name
  }

  /** What becomes of a FLAC when no operation fails. */
  ghost function Due(start: Files, eligible: seq<string>, outcomes: seq<Outcome>, n: nat, encode: int -> Encoding): Outcome
    requires n < |eligible| && n <= |outcomes| && forall i :: 0 <= i < |eligible| ==> IsFlac(eligible[i])
    requires Named(eligible[n]) in start && start[Named(eligible[n])].Audio?
  {
    var original := start[Named(eligible[n])];
    if Taken(start, eligible, outcomes, n, Mp3Of(eligible[n])) then Skipped
    else if Smaller(encode(original.track), original.size) then Converted(original.size - encode(original.track).size)
    else Failed
  }

  ghost predicate Sources(start: Files, eligible: seq<string>) {
    && (forall i :: 0 <= i < |eligible| ==> IsFlac(eligible[i]) && Named(eligible[i]) in start && start[Named(eligible[i])].Audio?)
    && (forall i, j :: 0 <= i < j < |eligible| ==> eligible[i] != eligible[j])
  }

  /** As long as nothing failed: every outcome so far is the due one, and a name is taken on the disk
      exactly when it was at the start or a conversion took it. */
  ghost predicate AllDue(start: Files, fs: Files, eligible: seq<string>, outcomes: seq<Outcome>, encode: int -> Encoding)
    requires Sources(start, eligible)
  {
    && |outcomes| <= |eligible|
    && (forall i :: 0 <= i < |outcomes| ==> outcomes[i] == Due(start, eligible, outcomes, i, encode))
    && (forall i :: 0 <= i < |eligible| ==>
          (Named(Mp3Of(eligible[i])) in fs <==> Taken(start, eligible, outcomes, |outcomes|, Mp3Of(eligible[i]))))
  }

  lemma NextDue(start: Files, a: Files, b: Files, eligible: seq<string>, outcomes: seq<Outcome>, saved: Option<int>, encode: int -> Encoding)
    requires Sources(start, eligible) && AllDue(start, a, eligible, outcomes, encode) && |outcomes| < |eligible|
    requires var s := eligible[|outcomes|];
             && Named(Mp3Of(s)) !in a && Named(s) in a && a[Named(s)] == start[Named(s)]
             && ConvertOk(s, a, b, saved) && Deserved(s, a, b, saved, encode, 0)
    ensures AllDue(start, b, eligible, outcomes + [if saved.Some? then Converted(saved.value) else Failed], encode)
  {
    var n, o := |outcomes|, if saved.Some? then Converted(saved.value) else Failed;
    var s, more := eligible[n], outcomes + [o];
    forall i | 0 <= i < |eligible|
      ensures Mp3Of(eligible[i]) != s && !IsPlaylist(Mp3Of(eligible[i]))
      ensures Taken(start, eligible, more, n + 1, Mp3Of(eligible[i])) <==>
              Taken(start, eligible, outcomes, n, Mp3Of(eligible[i])) || (saved.Some? && Mp3Of(eligible[i]) == Mp3Of(s))
    {
      MP3Ends(eligible[i]);
      Mp3Chars(Mp3Of(eligible[i]));
      TakenNext(start, eligible, outcomes, o, Mp3Of(eligible[i]));
    }
    forall i | 0 <= i < n ensures Due(start, eligible, more, i, encode) == Due(start, eligible, outcomes, i, encode) {
      DueSame(start, eligible, outcomes, o, i, encode);
    }
    DueSame(start, eligible, outcomes, o, n, encode);
    hide Mp3Of, IsFlac, IsPlaylist, Taken;
  }

  lemma TakenNext(start: Files, eligible: seq<string>, outcomes: seq<Outcome>, o: Outcome, name: string)
    requires |outcomes| < |eligible| && forall i :: 0 <= i < |eligible| ==> IsFlac(eligible[i])
    ensures Taken(start, eligible, outcomes + [o], |outcomes| + 1, name) <==>
            Taken(start, eligible, outcomes, |outcomes|, name) || (o.Converted? && Mp3Of(eligible[|outcomes|]) == name)
  {
    var more, n := outcomes + [o], |outcomes|;
    hide IsFlac, Mp3Of;
    assert forall j :: 0 <= j < n ==> more[j] == outcomes[j];
    assert more[n] == o;
  }

  lemma DueSame(start: Files, eligible: seq<string>, outcomes: seq<Outcome>, o: Outcome, i: nat, encode: int -> Encoding)
    requires Sources(start, eligible) && i <= |outcomes| < |eligible|
    ensures Due(start, eligible, outcomes + [o], i, encode) == Due(start, eligible, outcomes, i, encode)
  {
    hide IsFlac, Mp3Of;
    assert forall j :: 0 <= j < i ==> (outcomes + [o])[j] == outcomes[j];
  }

  /** A FLAC whose MP3 name is taken is skipped. */
  lemma SkipDue(start: Files, a: Files, eligible: seq<string>, outcomes: seq<Outcome>, encode: int -> Encoding)
    requires Sources(start, eligible) && AllDue(start, a, eligible, outcomes, encode) && |outcomes| < |eligible|
    requires Named(Mp3Of(eligible[|outcomes|])) in a
    ensures AllDue(start, a, eligible, outcomes + [Skipped], encode)
  {
    var more := outcomes + [Skipped];
    forall i | 0 <= i <= |outcomes| ensures Due(start, eligible, more, i, encode) == Due(start, eligible, outcomes, i, encode) {
      DueSame(start, eligible, outcomes, Skipped, i, encode);
    }
    forall i | 0 <= i < |eligible|
      ensures Taken(start, eligible, more, |more|, Mp3Of(eligible[i])) <==>
              Taken(start, eligible, outcomes, |outcomes|, Mp3Of(eligible[i]))
    {
      TakenNext(start, eligible, outcomes, Skipped, Mp3Of(eligible[i]));
    }
    hide Mp3Of, IsFlac, Taken;
  }

  lemma NoneDue(start: Files, eligible: seq<string>, encode: int -> Encoding)
    requires Sources(start, eligible)
    ensures AllDue(start, start, eligible, [], encode) && AllOutcomes(start, start, eligible, [])
  {
  }

  /** Converts every eligible FLAC in turn.  Every state on the way is safe, every FLAC is accounted
      for exactly once, without `apply` nothing changes, and when no operation fails every FLAC is
      converted whose MP3 is smaller and whose MP3 name is free when its turn comes, and no scratch file
      is left. */
  method Shrink(disk: Disk, eligible: seq<string>, playlists: seq<string>, apply: bool, encode: int -> Encoding)
      returns (result: Result, ghost outcomes: seq<Outcome>)
    requires disk.Valid() && disk.files == disk.library.files
    requires forall m :: m in playlists <==> m in disk.library.playlists
    requires forall s :: s in eligible <==> s in disk.library.eligible
    requires Sources(disk.files, eligible)
    modifies disk
    ensures disk.Valid() && old(disk.trace) <= disk.trace
    ensures result.eligible == |eligible|
    ensures !apply ==> disk.files == old(disk.files) && disk.trace == old(disk.trace) && result.converted == 0
    ensures apply ==>
              && |outcomes| == |eligible|
              && (forall i :: 0 <= i < |outcomes| ==> OutcomeOk(old(disk.files), disk.files, eligible[i], outcomes[i]))
              && Tally(outcomes) == Totals(result.converted, result.skipped, |result.failures|, result.bytesSaved)
              && result.converted + result.skipped + |result.failures| == |eligible|
    ensures apply && disk.failures == old(disk.failures) ==>
              forall i :: 0 <= i < |eligible| ==> outcomes[i] == Due(old(disk.files), eligible, outcomes, i, encode)
    ensures disk.failures == old(disk.failures) ==> Tidy(old(disk.files), disk.files, {})
  {
    hide Disk.Valid, IsFlac, OutcomeOk, AllOutcomes, AllDue, Due, Taken, Tally, Sources, Mp3Of, Tidy;
    TidySame(disk.files);
    outcomes := [];
    result := Result(|eligible|, 0, 0, 0, []);
    if !apply {
      return;
    }
    ghost var start := disk.files;
    ghost var failures := disk.failures;
    NoneDue(start, eligible, encode);
    TallyNone();
    var k := 0;
    while k < |eligible|
      invariant 0 <= k <= |eligible| && |outcomes| == k && result.eligible == |eligible|
      invariant disk.Valid() && old(disk.trace) <= disk.trace
      invariant AllOutcomes(start, disk.files, eligible, outcomes)
      invariant disk.failures >= failures
      invariant disk.failures == failures ==> Tidy(start, disk.files, {})
      invariant disk.failures == failures ==> AllDue(start, disk.files, eligible, outcomes, encode)
      invariant Tally(outcomes) == Totals(result.converted, result.skipped, |result.failures|, result.bytesSaved)
      invariant result.converted + result.skipped + |result.failures| == k
    {
      ghost var before, failed := disk.files, disk.failures;
      var o := ShrinkNext(disk, playlists, eligible[k], encode, start, eligible, outcomes, failures);
      result := match o
        case Skipped => result.(skipped := result.skipped + 1)
        case Converted(saved) => result.(converted := result.converted + 1, bytesSaved := result.bytesSaved + saved)
        case Failed => result.(failures := result.failures + [eligible[k]]);
      if disk.failures == failures {
        TidyThen(start, before, disk.files, {});
      }
      TallySnoc(outcomes, o);
      outcomes := outcomes + [o];
      k := k + 1;
    }
    OutcomesAt(start, disk.files, eligible, outcomes);
    if disk.failures == failures {
      DueAt(start, disk.files, eligible, outcomes, encode);
    }
  }

  lemma TallyNone()
    ensures Tally([]) == Totals(0, 0, 0, 0)
  {
  }

  lemma SourceIsFlac(start: Files, eligible: seq<string>, k: nat)
    requires Sources(start, eligible) && k < |eligible|
    ensures IsFlac(eligible[k])
  {
  }

  lemma SkippedOutcome(start: Files, fs: Files, eligible: seq<string>, outcomes: seq<Outcome>)
    requires AllOutcomes(start, fs, eligible, outcomes) && |outcomes| < |eligible|
    ensures AllOutcomes(start, fs, eligible, outcomes + [Skipped])
  {
    hide OutcomeOk;
  }

  lemma DueAt(start: Files, fs: Files, eligible: seq<string>, outcomes: seq<Outcome>, encode: int -> Encoding)
    requires Sources(start, eligible) && AllDue(start, fs, eligible, outcomes, encode) && |outcomes| == |eligible|
    ensures forall i :: 0 <= i < |eligible| ==> outcomes[i] == Due(start, eligible, outcomes, i, encode)
  {
    hide Due, Taken;
  }

  lemma OutcomesAt(start: Files, fs: Files, eligible: seq<string>, outcomes: seq<Outcome>)
    requires AllOutcomes(start, fs, eligible, outcomes) && |outcomes| == |eligible|
    ensures forall i :: 0 <= i < |outcomes| ==> OutcomeOk(start, fs, eligible[i], outcomes[i])
  {
    hide OutcomeOk;
  }

  /** One FLAC: skipped when its MP3 name is taken, and converted otherwise. */
  method ShrinkNext(disk: Disk, playlists: seq<string>, source: string, encode: int -> Encoding,
                    ghost start: Files, ghost eligible: seq<string>, ghost outcomes: seq<Outcome>, ghost failures: nat)
      returns (o: Outcome)
    requires disk.Valid() && start == disk.library.files
    requires forall m :: m in playlists <==> m in disk.library.playlists
    requires forall s :: s in eligible <==> s in disk.library.eligible
    requires Sources(start, eligible) && disk.failures >= failures
    requires |outcomes| < |eligible| && source == eligible[|outcomes|]
    requires AllOutcomes(start, disk.files, eligible, outcomes)
    requires disk.failures == failures ==> AllDue(start, disk.files, eligible, outcomes, encode)
    modifies disk
    ensures disk.Valid() && old(disk.trace) <= disk.trace && disk.failures >= old(disk.failures) >= failures
    ensures disk.failures == failures ==> AllDue(start, disk.files, eligible, outcomes + [o], encode)
    ensures AllOutcomes(start, disk.files, eligible, outcomes + [o])
    ensures disk.failures == old(disk.failures) ==> Tidy(old(disk.files), disk.files, {})
  {
    SourceIsFlac(start, eligible, |outcomes|);
    TidySame(disk.files);
    hide Safe, IsFlac, OutcomeOk, AllOutcomes, AllDue, Sources, Mp3Of;
    if Named(Mp3Of(source)) in disk.files {
      SkippedOutcome(start, disk.files, eligible, outcomes);
      if disk.failures == failures {
        SkipDue(start, disk.files, eligible, outcomes, encode);
      }
      return Skipped;
    }
    var saved := ConvertOne(disk, playlists, source, encode, start, eligible, outcomes, failures);
    return if saved.Some? then Converted(saved.value) else Failed;
  }

  /** The scratch name, the conversion, and the removal of the scratch file whatever came of it. */
  method ConvertOne(disk: Disk, playlists: seq<string>, source: string, encode: int -> Encoding,
                    ghost start: Files, ghost eligible: seq<string>, ghost outcomes: seq<Outcome>, ghost failures: nat)
      returns (saved: Option<int>)
    requires disk.Valid() && start == disk.library.files
    requires forall m :: m in playlists <==> m in disk.library.playlists
    requires forall s :: s in eligible <==> s in disk.library.eligible
    requires Sources(start, eligible) && disk.failures >= failures
    requires |outcomes| < |eligible| && source == eligible[|outcomes|] && Named(Mp3Of(source)) !in disk.files
    requires AllOutcomes(start, disk.files, eligible, outcomes)
    requires disk.failures == failures ==> AllDue(start, disk.files, eligible, outcomes, encode)
    modifies disk
    ensures disk.Valid() && old(disk.trace) <= disk.trace && disk.failures >= old(disk.failures) >= failures
    ensures disk.failures == failures ==>
              AllDue(start, disk.files, eligible, outcomes + [if saved.Some? then Converted(saved.value) else Failed], encode)
    ensures AllOutcomes(start, disk.files, eligible, outcomes + [if saved.Some? then Converted(saved.value) else Failed])
    ensures disk.failures == old(disk.failures) ==> Tidy(old(disk.files), disk.files, {})
  {
    ghost var before := disk.files;
    hide Safe, Replaced, IsFlac, IsPlaylist, ConvertOk, Clean, AllOutcomes, AllDue, OutcomeOk, Due, Taken, Deserved, Sources, Mp3Of, Tidy;
    assert Safe(disk.library, before) by {
      assert disk.trace[|disk.trace| - 1] == before;
    }
    NextSource(start, before, eligible, outcomes);
    assert source in eligible;
    var n := disk.Fresh();
    saved := Convert(disk, playlists, source, ScratchAudio(n), encode);
    ghost var after, failed := disk.files, disk.failures - old(disk.failures);
    Scratch(disk.library, after, ScratchAudio(n), Other(""), source);
    var _ := disk.Remove(ScratchAudio(n));
    TidyClean(before, after, ScratchAudio(n));
    ConvertThenClean(source, before, after, disk.files, saved, encode, failed);
    SourceMp3(disk.library, before, source);
    OutcomesNext(start, before, disk.files, eligible, outcomes, saved);
    if disk.failures == failures {
      NextDue(start, before, disk.files, eligible, outcomes, saved, encode);
    }
  }

  /** The FLAC whose turn it is is as it was. */
  lemma NextSource(start: Files, fs: Files, eligible: seq<string>, outcomes: seq<Outcome>)
    requires Sources(start, eligible) && AllOutcomes(start, fs, eligible, outcomes) && |outcomes| < |eligible|
    ensures var s := eligible[|outcomes|];
            IsFlac(s) && Named(s) in start && start[Named(s)].Audio? && Named(s) in fs && fs[Named(s)] == start[Named(s)]
  {
    assert OutcomeOk(start, fs, eligible[|outcomes|], Skipped);
  }

  lemma OutcomesNext(start: Files, a: Files, b: Files, eligible: seq<string>, outcomes: seq<Outcome>, saved: Option<int>)
    requires Sources(start, eligible) && AllOutcomes(start, a, eligible, outcomes) && |outcomes| < |eligible|
    requires var s := eligible[|outcomes|];
             ConvertOk(s, a, b, saved) && (IsFlac(s) && Named(Mp3Of(s)) in start ==> Named(Mp3Of(s)) in a)
    ensures AllOutcomes(start, b, eligible, outcomes + [if saved.Some? then Converted(saved.value) else Failed])
  {
    hide ConvertOk, OutcomeOk, Mp3Of, IsFlac;
    var s := eligible[|outcomes|];
    NextSource(start, a, eligible, outcomes);
    OwnOutcome(start, a, b, s, saved);
    forall i | 0 <= i < |eligible| && i != |outcomes|
      ensures OutcomeOk(start, b, eligible[i], if i < |outcomes| then outcomes[i] else Skipped)
    {
      OutcomesStay(start, a, b, s, saved, eligible[i], if i < |outcomes| then outcomes[i] else Skipped);
    }
  }

  lemma ConvertThenClean(s: string, a: Files, b: Files, c: Files, saved: Option<int>, encode: int -> Encoding, failed: int)
    requires ConvertOk(s, a, b, saved) && Deserved(s, a, b, saved, encode, failed)
    requires forall p: Path :: p.Named? ==> (p in b <==> p in c) && (p in b ==> b[p] == c[p])
    ensures ConvertOk(s, a, c, saved) && Deserved(s, a, c, saved, encode, failed)
  {
    hide IsFlac, IsPlaylist, Mp3Of;
  }

  lemma SourceMp3(l: Library, fs: Files, s: string)
    requires l.Valid() && Safe(l, fs) && s in l.eligible
    ensures Named(Mp3Of(s)) in l.files ==> Named(Mp3Of(s)) in fs
  {
    MP3Ends(s);
    if Named(Mp3Of(s)) in l.files {
      Mp3sUntouched(l, fs, Mp3Of(s));
    }
  }

  lemma OwnOutcome(start: Files, a: Files, b: Files, s: string, saved: Option<int>)
    requires ConvertOk(s, a, b, saved) && OutcomeOk(start, a, s, Skipped) && Named(s) in start && start[Named(s)].Audio?
    requires saved.Some? && Named(Mp3Of(s)) in start ==> Named(Mp3Of(s)) in a
    ensures OutcomeOk(start, b, s, if saved.Some? then Converted(saved.value) else Failed)
  {
    hide IsFlac, IsPlaylist, Mp3Of;
  }

  // ---------------------------------------------------------------- references that are lost

  lemma FlacSuffix(stem: string)
    requires stem != "" && stem[|stem| - 1] != '/'
    ensures IsFlac(stem + ".flac") && Mp3Of(stem + ".flac") == stem + ".mp3"
  {
    var name := stem + ".flac";
    assert name[|name| - 5..] == ".flac" && name[..|name| - 4] == stem + ".";
    forall i | 0 <= i < 5 ensures Lower(name[|name| - 5 + i]) == ".flac"[i] {
      assert name[|name| - 5..][i] == ".flac"[i];
    }
    assert stem + "." + "mp3" == stem + ".mp3";
  }

  lemma ListSuffix(stem: string)
    requires stem != ""
    ensures IsPlaylist(stem + ".m3u")
  {
    var name := stem + ".m3u";
    assert name[|name| - 4..] == ".m3u";
    forall i | 0 <= i < 4 ensures Lower(name[|name| - 4 + i]) == ".m3u"[i] {
      assert name[|name| - 4..][i] == ".m3u"[i];
    }
  }

  lemma {:induction false} ParentOf(dir: string, name: string)
    requires dir != "" && '/' !in name
    ensures Parent(dir + "/" + name) == dir
  {
    var whole := dir + "/" + name;
    if name == "" {
      assert whole[..|whole| - 1] == dir;
    } else {
      var init := name[..|name| - 1];
      assert name[|name| - 1] in name;
      assert whole[..|whole| - 1] == dir + "/" + init;
      ParentOf(dir, init);
    }
  }

  lemma TargetBelow(name: string, component: string)
    requires '/' !in component
    ensures Target(name + "/" + component) == Push(Target(name), component)
  {
    hide Push;
    assert (name + "/")[..|name|] == name;
    WalkTail(name + "/", component);
    assert "" + component == component;
  }

  lemma CleanBelow(dir: string, component: string)
    requires Clean(dir) && '/' !in component && component != "" && component != "." && component != ".."
    ensures Clean(dir + "/" + component) && Target(dir + "/" + component) == Target(dir) + [component]
  {
    hide Target;
    TargetBelow(dir, component);
    assert (Target(dir) + [component])[..|Target(dir)|] == Target(dir);
  }

  lemma TwoBelow(a: string, b: string)
    requires '/' !in a && a != "" && a != "." && a != ".." && '/' !in b && b != "" && b != "." && b != ".."
    ensures Clean("/" + a + "/" + b) && Target("/" + a + "/" + b) == [a, b]
  {
    assert Target("") == [] && Clean("");
    hide Target, Clean;
    CleanBelow("", a);
    assert "" + "/" + a == "/" + a;
    CleanBelow("/" + a, b);
    assert [] + [a] + [b] == [a, b];
  }

  /** Going up and down again leads to where one was. */
  lemma UpAndDown(dir: string, component: string)
    requires '/' !in component && component != "" && component != "." && component != ".."
    requires Target(dir) != [] && Target(dir)[|Target(dir)| - 1] == component
    ensures Target(dir + "/" + ".." + "/" + component) == Target(dir)
  {
    TargetBelow(dir, "..");
    TargetBelow(dir + "/" + "..", component);
    hide Target;
    assert Target(dir)[..|Target(dir)| - 1] + [component] == Target(dir);
  }

  /** A backslash that is part of a file's name becomes a separator. */
  lemma BackslashLost()
    ensures IsFlac("/m/a\\b.flac") && Mp3Of("/m/a\\b.flac") == "/m/a\\b.mp3"
    ensures Refers("/m", "a\\b.flac") == Some("/m/a\\b.flac")
    ensures RewriteLine("/m", "a\\b.flac", "/m/a\\b.flac") == "a/b.mp3"
    ensures Refers("/m", "a/b.mp3") == Some("/m/a/b.mp3")
  {
    var line, flac := "a\\b.flac", "/m/a\\b.flac";
    hide Trim, IsFlac, Mp3Of, Slashes;
    FlacSuffix("/m/a\\b");
    assert "/m/a\\b" + ".flac" == flac && "/m/a\\b" + ".mp3" == "/m/a\\b.mp3";
    assert Trim(line) == line && Trim("a/b.mp3") == "a/b.mp3";
    assert Join("/m", line) == flac && Join("/m", "a/b.mp3") == "/m/a/b.mp3" && Join("/m", "") == "/m/";
    SlashesAt("a\\b.mp3");
    assert "/m/a\\b.mp3"[3..] == "a\\b.mp3" && Slashes("a\\b.mp3") == "a/b.mp3";
  }

  const FLAC: string := "/m/A/x.flac"
  const MP3: string := "/m/A/x.mp3"
  const LIST: string := "/m/A/p.m3u"

  lemma FlacName()
    ensures IsFlac(FLAC) && IsAbsolute(FLAC) && Mp3Of(FLAC) == MP3 && Clean(FLAC)
    ensures Target("/m/A") == ["m", "A"]
  {
    hide IsFlac, Mp3Of, Clean, Target;
    FlacSuffix("/m/A/x");
    assert "/m/A/x" + ".flac" == FLAC && "/m/A/x" + ".mp3" == MP3;
    TwoBelow("m", "A");
    assert "/" + "m" + "/" + "A" == "/m/A";
    CleanBelow("/m/A", "x.flac");
    assert "/m/A" + "/" + "x.flac" == FLAC;
  }

  /** In a playlist of its own folder, `../A/x.flac` leads to the FLAC without being its name. */
  lemma DotDotName()
    ensures Refers("/m/A", "../A/x.flac") == Some("/m/A/../A/x.flac") && "/m/A/../A/x.flac" != FLAC
    ensures Target("/m/A/../A/x.flac") == Target(FLAC)
  {
    hide Trim, Target;
    assert Trim("../A/x.flac") == "../A/x.flac" && Join("/m/A", "../A/x.flac") == "/m/A/../A/x.flac";
    FlacName();
    UpAndDown("/m/A", "A");
    assert "/m/A" + "/" + ".." + "/" + "A" == "/m/A/../A";
    TargetBelow("/m/A/../A", "x.flac");
    TargetBelow("/m/A", "x.flac");
    assert "/m/A/../A" + "/" + "x.flac" == "/m/A/../A/x.flac" && "/m/A" + "/" + "x.flac" == FLAC;
    assert |"/m/A/../A/x.flac"| != |FLAC|;
  }

  /** A folder with a FLAC and a playlist of one line, which is read for the FLAC or not. */
  function Folder(line: string, read: bool): Library {
    Library(map[Named(FLAC) := Audio(1, 10), Named(LIST) := Playlist(true, [line])], {FLAC}, {LIST}, (m, s) => read)
  }

  lemma FolderValid(line: string, read: bool)
    ensures Folder(line, read).Valid() && Parent(LIST) == "/m/A" && MP3 != LIST && FLAC != LIST
    ensures Sources(Folder(line, read).files, [FLAC])
  {
    hide IsFlac, IsPlaylist, Clean, Parent;
    FlacName();
    ListSuffix("/m/A/p");
    assert "/m/A/p" + ".m3u" == LIST;
    ParentOf("/m/A", "p.m3u");
    assert "/m/A" + "/" + "p.m3u" == LIST;
    assert FLAC[5] != LIST[5] && MP3[5] != LIST[5];
  }

  /** The shrinker on that folder, when no operation fails except for the reading of the playlist. */
  method ShrinkFolder(line: string, read: bool) returns (files: Files)
    ensures Named(FLAC) !in files && Named(MP3) in files && files[Named(MP3)] == Audio(1, 5)
    ensures Named(LIST) in files && IsFlac(FLAC)
    ensures files[Named(LIST)]
         == Playlist(true, [if read && Refers("/m/A", line) == Some(FLAC) then RewriteLine("/m/A", line, FLAC) else line])
  {
    FolderValid(line, read);
    FlacName();
    var l := Folder(line, read);
    var disk := new Disk(l.files, n => false, l.opens, l);
    var encode := (track: int) => Encoded(5);
    hide IsFlac, IsPlaylist, Clean, Parent, Safe, Sources;
    var result, outcomes := Shrink(disk, [FLAC], [LIST], true, encode);
    files := disk.files;
    assert outcomes[0] == Due(l.files, [FLAC], outcomes, 0, encode);
    FolderLine(line, read, files);
  }

  lemma FolderLine(line: string, read: bool, fs: Files)
    requires Folder(line, read).Valid() && Safe(Folder(line, read), fs) && Named(FLAC) !in fs && IsFlac(FLAC) && Parent(LIST) == "/m/A"
    ensures Named(LIST) in fs
    ensures fs[Named(LIST)]
         == Playlist(true, [if read && Refers("/m/A", line) == Some(FLAC) then RewriteLine("/m/A", line, FLAC) else line])
  {
    hide IsFlac, IsPlaylist, Clean, Parent, Refers, RewriteLine;
    assert PlaylistKept(Folder(line, read), fs, LIST);
    assert LineKept(Folder(line, read), fs, LIST, line, fs[Named(LIST)].lines[0]);
  }

  /** When reading the playlist fails once, it is skipped, the FLAC is removed, and the playlist still
      names it. */
  method UnreadPlaylistLoses() returns (files: Files)
    ensures Refers("/m/A", "x.flac") == Some(FLAC) && Named(FLAC) !in files
    ensures Named(LIST) in files && files[Named(LIST)] == Playlist(true, ["x.flac"])
  {
    assert Refers("/m/A", "x.flac") == Some(FLAC) by {
      hide Trim;
      assert Trim("x.flac") == "x.flac" && Join("/m/A", "x.flac") == FLAC;
    }
    files := ShrinkFolder("x.flac", false);
  }

  /** When nothing fails, a line that leads to the FLAC through `..` stays, and leads to nothing. */
  method DotSegmentLoses() returns (files: Files)
    ensures Refers("/m/A", "../A/x.flac") == Some("/m/A/../A/x.flac") && Target("/m/A/../A/x.flac") == Target(FLAC) != Target(MP3)
    ensures Named(FLAC) !in files
    ensures Named(LIST) in files && files[Named(LIST)] == Playlist(true, ["../A/x.flac"])
  {
    hide Refers, RewriteLine, Target;
    DotDotName();
    FlacName();
    Mp3Clean(FLAC);
    files := ShrinkFolder("../A/x.flac", true);
  }
}
