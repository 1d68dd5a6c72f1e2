/** Matching recordings of two sources and merging an album's local and catalogue tracks. */
module CatalogMerge {
  import opened Prelude
  import MusicIdentity

  datatype StrongId = MusicBrainz(value: string) | Isrc(value: string)

  datatype Strength = ByMusicBrainz | ByIsrc | Weaker

  datatype Identity = Identity(id: string, strength: Strength)

  datatype Item = Item(isTrack: bool, id: string, provider: string, title: string, artist: Option<string>,
                       credits: seq<string>, duration: Option<nat>, artwork: Option<string>,
                       musicBrainz: Option<string>, isrc: Option<string>, identity: Option<Identity>)

  const TOLERANCE: nat := 20

  // ---------------------------------------------------------------- matching

  /** Normalised, non-empty identifiers, and those of an identity derived from one. */
  function StrongIds(x: MusicIdentity.Texts, t: Item): set<StrongId> {
    (if t.musicBrainz.Some? && x.Norm(t.musicBrainz) != "" then {MusicBrainz(x.Norm(t.musicBrainz))} else {})
    + (if t.isrc.Some? && x.Norm(t.isrc) != "" then {Isrc(x.Norm(t.isrc))} else {})
    + (if t.identity.Some? && t.identity.value.strength == ByMusicBrainz then {MusicBrainz(t.identity.value.id)}
       else if t.identity.Some? && t.identity.value.strength == ByIsrc then {Isrc(t.identity.value.id)}
       else {})
  }

  predicate ShareId(a: set<StrongId>, b: set<StrongId>) {
    a * b != {}
  }

  predicate HasIsrc(ids: set<StrongId>) {
    exists i :: i in ids && i.Isrc?
  }

  predicate HasMusicBrainz(ids: set<StrongId>) {
    exists i :: i in ids && i.MusicBrainz?
  }

  predicate ShareScheme(a: set<StrongId>, b: set<StrongId>) {
    (HasIsrc(a) && HasIsrc(b)) || (HasMusicBrainz(a) && HasMusicBrainz(b))
  }

  function TitleKey(x: MusicIdentity.Texts, title: string): string {
    x.Norm(Some(title)) + "|" + x.Version(title)
  }

  predicate Credited(x: MusicIdentity.Texts, t: Item, artist: string) {
    exists i :: 0 <= i < |t.credits| && x.Norm(Some(t.credits[i])) == artist
  }

  predicate SameLength(a: Option<nat>, b: Option<nat>) {
    a.Some? && b.Some? && a.value > 0 && b.value > 0 ==>
      (if a.value < b.value then b.value - a.value else a.value - b.value) <= TOLERANCE
  }

  /** Titles with their versions, an artist credit and the durations agree. */
  predicate MetadataMatch(x: MusicIdentity.Texts, local: Item, catalog: Item) {
    if TitleKey(x, local.title) != TitleKey(x, catalog.title) then false
    else
      var localArtist, catalogArtist := x.Norm(local.artist), x.Norm(catalog.artist);
      if localArtist == "" || catalogArtist == "" then false
      else if localArtist != catalogArtist && !Credited(x, local, catalogArtist) && !Credited(x, catalog, localArtist) then false
      else SameLength(local.duration, catalog.duration)
  }

  predicate RecordingsMatch(x: MusicIdentity.Texts, local: Item, catalog: Item) {
    if !local.isTrack || !catalog.isTrack then false
    else if ShareId(StrongIds(x, local), StrongIds(x, catalog)) then true
    else if ShareScheme(StrongIds(x, local), StrongIds(x, catalog)) then false
    else MetadataMatch(x, local, catalog)
  }

  lemma MetadataSymmetric(x: MusicIdentity.Texts, a: Item, b: Item)
    ensures MetadataMatch(x, a, b) == MetadataMatch(x, b, a)
  {
    hide Credited, TitleKey;
  }

  /** It does not matter which of two recordings is the local one, and only tracks match. */
  lemma MatchSymmetric(x: MusicIdentity.Texts, a: Item, b: Item)
    ensures RecordingsMatch(x, a, b) == RecordingsMatch(x, b, a)
    ensures RecordingsMatch(x, a, b) ==> a.isTrack && b.isTrack
  {
    MetadataSymmetric(x, a, b);
    assert StrongIds(x, a) * StrongIds(x, b) == StrongIds(x, b) * StrongIds(x, a);
    hide StrongIds, HasIsrc, HasMusicBrainz, MetadataMatch;
  }

  /** The ISRCs of an item: that of its hints, normalised, and that of an identity derived from one. */
  function IsrcsOf(x: MusicIdentity.Texts, t: Item): set<string> {
    (if t.isrc.Some? && x.Norm(t.isrc) != "" then {x.Norm(t.isrc)} else {})
    + (if t.identity.Some? && t.identity.value.strength == ByIsrc then {t.identity.value.id} else {})
  }

  function MusicBrainzIdsOf(x: MusicIdentity.Texts, t: Item): set<string> {
    (if t.musicBrainz.Some? && x.Norm(t.musicBrainz) != "" then {x.Norm(t.musicBrainz)} else {})
    + (if t.identity.Some? && t.identity.value.strength == ByMusicBrainz then {t.identity.value.id} else {})
  }

  lemma StrongIdsAre(x: MusicIdentity.Texts, t: Item)
    ensures forall v :: Isrc(v) in StrongIds(x, t) <==> v in IsrcsOf(x, t)
    ensures forall v :: MusicBrainz(v) in StrongIds(x, t) <==> v in MusicBrainzIdsOf(x, t)
  {
  }

  lemma SharedIds(x: MusicIdentity.Texts, a: Item, b: Item)
    ensures ShareId(StrongIds(x, a), StrongIds(x, b)) <==>
            !(IsrcsOf(x, a) !! IsrcsOf(x, b)) || !(MusicBrainzIdsOf(x, a) !! MusicBrainzIdsOf(x, b))
    ensures ShareScheme(StrongIds(x, a), StrongIds(x, b)) <==>
            (IsrcsOf(x, a) != {} && IsrcsOf(x, b) != {}) || (MusicBrainzIdsOf(x, a) != {} && MusicBrainzIdsOf(x, b) != {})
  {
    hide StrongIds, IsrcsOf, MusicBrainzIdsOf;
    StrongIdsAre(x, a);
    StrongIdsAre(x, b);
    HasScheme(x, a);
    HasScheme(x, b);
    var p, q := StrongIds(x, a), StrongIds(x, b);
    if p * q != {} {
      var i := Member(p * q);
      match i {
        case Isrc(v) => assert v in IsrcsOf(x, a) && v in IsrcsOf(x, b);
        case MusicBrainz(v) => assert v in MusicBrainzIdsOf(x, a) && v in MusicBrainzIdsOf(x, b);
      }
    }
    if v :| v in IsrcsOf(x, a) && v in IsrcsOf(x, b) {
      assert Isrc(v) in p * q;
    }
    if v :| v in MusicBrainzIdsOf(x, a) && v in MusicBrainzIdsOf(x, b) {
      assert MusicBrainz(v) in p * q;
    }
  }

  lemma HasScheme(x: MusicIdentity.Texts, t: Item)
    ensures HasIsrc(StrongIds(x, t)) <==> IsrcsOf(x, t) != {}
    ensures HasMusicBrainz(StrongIds(x, t)) <==> MusicBrainzIdsOf(x, t) != {}
  {
    hide StrongIds, IsrcsOf, MusicBrainzIdsOf;
    StrongIdsAre(x, t);
    if v :| v in IsrcsOf(x, t) {
      assert Isrc(v) in StrongIds(x, t);
    }
    if v :| v in MusicBrainzIdsOf(x, t) {
      assert MusicBrainz(v) in StrongIds(x, t);
    }
  }

  /** Two tracks whose identifiers of one scheme disagree are the same recording all the same exactly
      when they share an identifier of the other scheme; titles, artists and lengths play no part. */
  lemma DisagreeingSchemes(x: MusicIdentity.Texts, a: Item, b: Item)
    requires a.isTrack && b.isTrack
    ensures IsrcsOf(x, a) != {} && IsrcsOf(x, b) != {} && IsrcsOf(x, a) !! IsrcsOf(x, b) ==>
              (RecordingsMatch(x, a, b) <==> exists v :: v in MusicBrainzIdsOf(x, a) && v in MusicBrainzIdsOf(x, b))
    ensures MusicBrainzIdsOf(x, a) != {} && MusicBrainzIdsOf(x, b) != {} && MusicBrainzIdsOf(x, a) !! MusicBrainzIdsOf(x, b) ==>
              (RecordingsMatch(x, a, b) <==> exists v :: v in IsrcsOf(x, a) && v in IsrcsOf(x, b))
  {
    SharedIds(x, a, b);
    hide StrongIds, ShareId, ShareScheme, IsrcsOf, MusicBrainzIdsOf, MetadataMatch;
    var p, q := MusicBrainzIdsOf(x, a) * MusicBrainzIdsOf(x, b), IsrcsOf(x, a) * IsrcsOf(x, b);
    if p != {} {
      var v := Member(p);
      assert v in MusicBrainzIdsOf(x, a) && v in MusicBrainzIdsOf(x, b);
    }
    if q != {} {
      var v := Member(q);
      assert v in IsrcsOf(x, a) && v in IsrcsOf(x, b);
    }
  }

  /** With identifiers of a common scheme, tracks match exactly when they share an identifier of any. */
  lemma CommonSchemeDecides(x: MusicIdentity.Texts, a: Item, b: Item)
    requires a.isTrack && b.isTrack
    requires (IsrcsOf(x, a) != {} && IsrcsOf(x, b) != {}) || (MusicBrainzIdsOf(x, a) != {} && MusicBrainzIdsOf(x, b) != {})
    ensures RecordingsMatch(x, a, b) <==>
            !(IsrcsOf(x, a) !! IsrcsOf(x, b)) || !(MusicBrainzIdsOf(x, a) !! MusicBrainzIdsOf(x, b))
  {
    SharedIds(x, a, b);
    hide StrongIds, ShareId, ShareScheme, IsrcsOf, MusicBrainzIdsOf, MetadataMatch;
  }

  /** So for tracks that no identity was derived for from such identifiers: of the hints, a common
      normalised ISRC or MusicBrainz id decides. */
  lemma HintsDecide(x: MusicIdentity.Texts, a: Item, b: Item)
    requires a.isTrack && b.isTrack
    requires forall t :: t in {a, b} && t.identity.Some? ==> t.identity.value.strength == Weaker
    requires (x.Norm(a.isrc) != "" && x.Norm(b.isrc) != "") || (x.Norm(a.musicBrainz) != "" && x.Norm(b.musicBrainz) != "")
    ensures RecordingsMatch(x, a, b) <==>
            || (x.Norm(a.isrc) == x.Norm(b.isrc) && x.Norm(a.isrc) != "")
            || (x.Norm(a.musicBrainz) == x.Norm(b.musicBrainz) && x.Norm(a.musicBrainz) != "")
  {
    HintIds(x, a);
    HintIds(x, b);
    hide IsrcsOf, MusicBrainzIdsOf, RecordingsMatch, MusicIdentity.Normalized;
    CommonSchemeDecides(x, a, b);
  }

  lemma HintIds(x: MusicIdentity.Texts, t: Item)
    requires t.identity.Some? ==> t.identity.value.strength == Weaker
    ensures IsrcsOf(x, t) == if x.Norm(t.isrc) == "" then {} else {x.Norm(t.isrc)}
    ensures MusicBrainzIdsOf(x, t) == if x.Norm(t.musicBrainz) == "" then {} else {x.Norm(t.musicBrainz)}
  {
  }

  /** Two recordings of different ISRC, title, artist and length that one MusicBrainz id links. */
  lemma DifferentIsrcsMatch()
    ensures var a := Item(true, "1", "local", "one", Some("first"), [], Some(100), None, Some("5b11f4ce"), Some("usabc1700001"), None);
            var b := Item(true, "2", "catalog", "two", Some("second"), [], Some(300), None, Some("5b11f4ce"), Some("usabc1700002"), None);
            && IsrcsOf(MusicIdentity.PLAIN, a) == {"usabc1700001"} && IsrcsOf(MusicIdentity.PLAIN, b) == {"usabc1700002"}
            && IsrcsOf(MusicIdentity.PLAIN, a) !! IsrcsOf(MusicIdentity.PLAIN, b)
            && RecordingsMatch(MusicIdentity.PLAIN, a, b)
  {
    hide MusicIdentity.Normalized, MetadataMatch;
    MusicIdentity.PlainWord("5b11f4ce");
    MusicIdentity.PlainWord("usabc1700001");
    MusicIdentity.PlainWord("usabc1700002");
    assert "usabc1700001"[11] != "usabc1700002"[11];
    var a := Item(true, "1", "local", "one", Some("first"), [], Some(100), None, Some("5b11f4ce"), Some("usabc1700001"), None);
    var b := Item(true, "2", "catalog", "two", Some("second"), [], Some(300), None, Some("5b11f4ce"), Some("usabc1700002"), None);
    assert MusicBrainz("5b11f4ce") in StrongIds(MusicIdentity.PLAIN, a) * StrongIds(MusicIdentity.PLAIN, b);
  }

  /** Without a common scheme, tracks match exactly when titles and version markers agree, an artist of
      one is credited on the other, and known durations are at most the tolerance apart. */
  lemma MetadataDecides(x: MusicIdentity.Texts, a: Item, b: Item)
    requires x.alphabet.Valid() && !x.alphabet.alnum('|') && forall c :: x.alphabet.alnum(c) ==> '|' !in x.alphabet.lower(c)
    requires a.isTrack && b.isTrack && !ShareScheme(StrongIds(x, a), StrongIds(x, b))
    ensures RecordingsMatch(x, a, b) <==>
            && x.Norm(Some(a.title)) == x.Norm(Some(b.title)) && x.Version(a.title) == x.Version(b.title)
            && x.Norm(a.artist) != "" && x.Norm(b.artist) != ""
            && (x.Norm(a.artist) == x.Norm(b.artist)
                || (exists i :: 0 <= i < |a.credits| && x.Norm(Some(a.credits[i])) == x.Norm(b.artist))
                || (exists i :: 0 <= i < |b.credits| && x.Norm(Some(b.credits[i])) == x.Norm(a.artist)))
            && (forall d, e :: a.duration == Some(d) && b.duration == Some(e) && d > 0 && e > 0 ==> -20 <= d - e <= 20)
  {
    TitleKeyDecides(x, a.title, b.title);
    NoSharedId(x, a, b);
    hide StrongIds, TitleKey;
    assert SameLength(a.duration, b.duration) <==>
           (forall d, e :: a.duration == Some(d) && b.duration == Some(e) && d > 0 && e > 0 ==> -20 <= d - e <= 20);
  }

  /** Sharing an identifier is sharing its scheme. */
  lemma NoSharedId(x: MusicIdentity.Texts, a: Item, b: Item)
    requires !ShareScheme(StrongIds(x, a), StrongIds(x, b))
    ensures !ShareId(StrongIds(x, a), StrongIds(x, b))
  {
    var p, q := StrongIds(x, a), StrongIds(x, b);
    hide StrongIds;
    assert forall i :: i in p && i in q ==> ShareScheme(p, q);
    if p * q != {} {
      var i := Member(p * q);
    }
  }

  /** Two title keys are equal exactly when both the normalised titles and the version signatures are. */
  lemma TitleKeyDecides(x: MusicIdentity.Texts, s: string, t: string)
    requires x.alphabet.Valid() && !x.alphabet.alnum('|') && forall c :: x.alphabet.alnum(c) ==> '|' !in x.alphabet.lower(c)
    ensures TitleKey(x, s) == TitleKey(x, t) <==> x.Norm(Some(s)) == x.Norm(Some(t)) && x.Version(s) == x.Version(t)
  {
    NoBar(x, s);
    NoBar(x, t);
    var a, b := x.Norm(Some(s)), x.Norm(Some(t));
    var u, v := x.Version(s), x.Version(t);
    if TitleKey(x, s) == TitleKey(x, t) {
      var k := TitleKey(x, s);
      assert k[|a|] == '|' && k[|b|] == '|';
      assert forall i :: 0 <= i < |a| ==> k[i] == a[i];
      assert forall i :: 0 <= i < |b| ==> k[i] == b[i];
      assert |a| == |b|;
      assert a == k[..|a|] == b && u == k[|a| + 1..] == v;
    }
  }

  lemma NoBar(x: MusicIdentity.Texts, s: string)
    requires x.alphabet.Valid() && !x.alphabet.alnum('|') && forall c :: x.alphabet.alnum(c) ==> '|' !in x.alphabet.lower(c)
    ensures '|' !in x.Norm(Some(s))
  {
    var words := MusicIdentity.Words(x.alphabet, x.alphabet.prepare(s));
    NoBarInWords(x.alphabet, x.alphabet.prepare(s));
    MusicIdentity.JoinClean(words, ' ', '|');
  }

  lemma {:induction false} NoBarInWords(a: MusicIdentity.Alphabet, s: string)
    requires forall c :: a.alnum(c) ==> '|' !in a.lower(c)
    ensures forall w :: w in MusicIdentity.Words(a, s) ==> '|' !in w
  {
    if s != "" {
      var n := |s| - 1;
      var before := MusicIdentity.Words(a, s[..n]);
      NoBarInWords(a, s[..n]);
      forall w | w in MusicIdentity.Words(a, s)
        ensures w in before || w == a.lower(s[n]) || (before != [] && w == before[|before| - 1] + a.lower(s[n]))
      {
      }
      assert before != [] ==> before[|before| - 1] in before;
    }
  }

  // ---------------------------------------------------------------- merging

  /** The first local track that matches. */
  function FirstMatch(x: MusicIdentity.Texts, locals: seq<Item>, t: Item): Option<Item> {
    if locals == [] then None
    else if RecordingsMatch(x, locals[0], t) then Some(locals[0])
    else FirstMatch(x, locals[1..], t)
  }

  lemma {:induction false} FirstMatchIs(x: MusicIdentity.Texts, locals: seq<Item>, t: Item)
    ensures FirstMatch(x, locals, t).None? ==> forall j :: 0 <= j < |locals| ==> !RecordingsMatch(x, locals[j], t)
    ensures FirstMatch(x, locals, t).Some? ==>
              exists i :: 0 <= i < |locals| && locals[i] == FirstMatch(x, locals, t).value && RecordingsMatch(x, locals[i], t)
                          && forall j :: 0 <= j < i ==> !RecordingsMatch(x, locals[j], t)
  {
    hide RecordingsMatch;
    if locals != [] && !RecordingsMatch(x, locals[0], t) {
      var rest := locals[1..];
      FirstMatchIs(x, rest, t);
      if FirstMatch(x, rest, t).Some? {
        var i :| 0 <= i < |rest| && rest[i] == FirstMatch(x, rest, t).value && RecordingsMatch(x, rest[i], t)
                 && forall j :: 0 <= j < i ==> !RecordingsMatch(x, rest[j], t);
        assert locals[i + 1] == rest[i];
        assert forall j :: 0 <= j < i + 1 ==> j == 0 || locals[j] == rest[j - 1];
      } else {
        assert forall j :: 0 <= j < |locals| ==> j == 0 || locals[j] == rest[j - 1];
      }
    }
  }

  /** A catalogue track with the id, the provider and, where it has one, the artwork of a local track. */
  function Combined(local: Item, t: Item): Item {
    t.(id := local.id, provider := local.provider, artwork := if local.artwork.Some? then local.artwork else t.artwork)
  }

  function Taken(x: MusicIdentity.Texts, locals: seq<Item>, t: Item): Item {
    match FirstMatch(x, locals, t)
    case None => t
    case Some(local) => Combined(local, t)
  }

  function Tracks(catalog: seq<Item>): (tracks: seq<Item>)
    ensures forall t :: t in tracks <==> t in catalog && t.isTrack
  {
    if catalog == [] then []
    else if catalog[|catalog| - 1].isTrack then Tracks(catalog[..|catalog| - 1]) + [catalog[|catalog| - 1]]
    else Tracks(catalog[..|catalog| - 1])
  }

  /** The ids of the local tracks that some catalogue track takes over. */
  function Used(x: MusicIdentity.Texts, locals: seq<Item>, tracks: seq<Item>): set<string> {
    if tracks == [] then {}
    else
      var used, found := Used(x, locals, tracks[..|tracks| - 1]), FirstMatch(x, locals, tracks[|tracks| - 1]);
      if found.Some? then used + {found.value.id} else used
  }

  function TakenAll(x: MusicIdentity.Texts, locals: seq<Item>, tracks: seq<Item>): (out: seq<Item>)
    ensures |out| == |tracks| && forall k :: 0 <= k < |tracks| ==> out[k] == Taken(x, locals, tracks[k])
  {
    seq(|tracks|, k requires 0 <= k < |tracks| => Taken(x, locals, tracks[k]))
  }

  /** The items whose id is not among the given ones, in order. */
  function Except(items: seq<Item>, ids: set<string>): (rest: seq<Item>)
    ensures forall l :: l in rest <==> l in items && l.id !in ids
  {
    if items == [] then []
    else if items[|items| - 1].id in ids then Except(items[..|items| - 1], ids)
    else Except(items[..|items| - 1], ids) + [items[|items| - 1]]
  }

  /** First the catalogue's tracks in order, each as it was or taken over by its first matching local
      track; then, if wanted, exactly the local items whose id was not used, in order. */
  function Merge(x: MusicIdentity.Texts, locals: seq<Item>, catalog: seq<Item>, append: bool): seq<Item> {
    var tracks := Tracks(catalog);
    TakenAll(x, locals, tracks) + (if append then Except(locals, Used(x, locals, tracks)) else [])
  }

  method Find(x: MusicIdentity.Texts, locals: seq<Item>, t: Item) returns (found: Option<Item>)
    ensures found == FirstMatch(x, locals, t)
  {
    hide RecordingsMatch;
    var i := 0;
    while i < |locals|
      invariant 0 <= i <= |locals| && FirstMatch(x, locals, t) == FirstMatch(x, locals[i..], t)
    {
      if RecordingsMatch(x, locals[i], t) {
        return Some(locals[i]);
      }
      assert locals[i..][1..] == locals[i + 1..];
      i := i + 1;
    }
    return None;
  }

  method MergeAlbumTracks(x: MusicIdentity.Texts, locals: seq<Item>, catalog: seq<Item>, append: bool) returns (merged: seq<Item>)
    ensures merged == Merge(x, locals, catalog, append)
  {
    hide FirstMatch, Combined, TakenAll, Used, Tracks;
    var matched: set<string> := {};
    merged := [];
    MergeNone(x, locals);
    var k := 0;
    while k < |catalog|
      invariant 0 <= k <= |catalog|
      invariant merged == TakenAll(x, locals, Tracks(catalog[..k]))
      invariant matched == Used(x, locals, Tracks(catalog[..k]))
    {
      MergeNext(x, locals, catalog, k);
      if catalog[k].isTrack {
        var found := Find(x, locals, catalog[k]);
        if found.Some? {
          matched := matched + {found.value.id};
          merged := merged + [Combined(found.value, catalog[k])];
        } else {
          merged := merged + [catalog[k]];
        }
      }
      k := k + 1;
    }
    assert catalog[..k] == catalog;
    if append {
      var rest := AppendUnused(locals, matched);
      merged := merged + rest;
    }
  }

  lemma MergeNone(x: MusicIdentity.Texts, locals: seq<Item>)
    ensures Tracks([]) == [] && TakenAll(x, locals, []) == [] && Used(x, locals, []) == {}
  {
  }

  lemma MergeNext(x: MusicIdentity.Texts, locals: seq<Item>, catalog: seq<Item>, k: nat)
    requires k < |catalog|
    ensures var before, after, t := Tracks(catalog[..k]), Tracks(catalog[..k + 1]), catalog[k];
            if t.isTrack then
              && TakenAll(x, locals, after) == TakenAll(x, locals, before) + [Taken(x, locals, t)]
              && Used(x, locals, after) ==
                 Used(x, locals, before) + (if FirstMatch(x, locals, t).Some? then {FirstMatch(x, locals, t).value.id} else {})
            else after == before
  {
    hide FirstMatch, Combined;
    var before, t := Tracks(catalog[..k]), catalog[k];
    assert catalog[..k + 1][..k] == catalog[..k];
    assert (before + [t])[..|before|] == before;
    if t.isTrack {
      assert TakenAll(x, locals, before + [t]) == TakenAll(x, locals, before) + [Taken(x, locals, t)];
    }
  }

  method AppendUnused(locals: seq<Item>, matched: set<string>) returns (rest: seq<Item>)
    ensures rest == Except(locals, matched)
  {
    rest := [];
    var i := 0;
    while i < |locals|
      invariant 0 <= i <= |locals| && rest == Except(locals[..i], matched)
    {
      assert locals[..i + 1][..i] == locals[..i];
      if locals[i].id !in matched {
        rest := rest + [locals[i]];
      }
      i := i + 1;
    }
    assert locals[..i] == locals;
  }

  predicate HasId(items: seq<Item>, id: string) {
    exists l :: l in items && l.id == id
  }

  lemma {:induction false} UsedHas(x: MusicIdentity.Texts, locals: seq<Item>, tracks: seq<Item>, id: string)
    ensures id in Used(x, locals, tracks) <==>
            exists t :: t in tracks && FirstMatch(x, locals, t).Some? && FirstMatch(x, locals, t).value.id == id
  {
    hide FirstMatch;
    if tracks != [] {
      var n := |tracks| - 1;
      UsedHas(x, locals, tracks[..n], id);
      assert tracks == tracks[..n] + [tracks[n]];
      assert forall t :: t in tracks <==> t in tracks[..n] || t == tracks[n];
      if id in Used(x, locals, tracks[..n]) {
        var t :| t in tracks[..n] && FirstMatch(x, locals, t).Some? && FirstMatch(x, locals, t).value.id == id;
        assert t in tracks;
      } else {
        assert tracks[n] in tracks;
      }
    }
  }

  // ---------------------------------------------------------------- the result, place by place

  /** Local track `i` is the first one that matches `t`. */
  ghost predicate MatchesFirst(x: MusicIdentity.Texts, locals: seq<Item>, t: Item, i: int) {
    0 <= i < |locals| && RecordingsMatch(x, locals[i], t) && forall j :: 0 <= j < i ==> !RecordingsMatch(x, locals[j], t)
  }

  lemma {:induction false} TracksPicked(catalog: seq<Item>) returns (at: seq<nat>)
    ensures Picks(at, catalog, (t: Item) => t.isTrack)
    ensures |Tracks(catalog)| == |at| && forall k :: 0 <= k < |at| ==> at[k] < |catalog| && Tracks(catalog)[k] == catalog[at[k]]
  {
    hide Picks;
    PicksNext([], catalog, (t: Item) => t.isTrack);
    at := [];
    if catalog != [] {
      var n := |catalog| - 1;
      at := TracksPicked(catalog[..n]);
      PicksNext(at, catalog, (t: Item) => t.isTrack);
      at := if catalog[n].isTrack then at + [n] else at;
    }
  }

  lemma {:induction false} ExceptPicked(items: seq<Item>, ids: set<string>) returns (at: seq<nat>)
    ensures Picks(at, items, (l: Item) => l.id !in ids)
    ensures |Except(items, ids)| == |at| && forall k :: 0 <= k < |at| ==> at[k] < |items| && Except(items, ids)[k] == items[at[k]]
  {
    hide Picks;
    PicksNext([], items, (l: Item) => l.id !in ids);
    at := [];
    if items != [] {
      var n := |items| - 1;
      at := ExceptPicked(items[..n], ids);
      PicksNext(at, items, (l: Item) => l.id !in ids);
      at := if items[n].id !in ids then at + [n] else at;
    }
  }

  /** The local item is the first match of some track of the catalogue, or has the id of one. */
  ghost predicate IsUsed(x: MusicIdentity.Texts, locals: seq<Item>, catalog: seq<Item>, l: Item) {
    exists t, i :: t in catalog && t.isTrack && MatchesFirst(x, locals, t, i) && locals[i].id == l.id
  }

  /** A catalogue track as it comes out: with the id and the provider of the first local track that
      matches it, and with its artwork where it has one; everything else is the catalogue's.  Without a
      match nothing changes. */
  ghost predicate ComesOut(x: MusicIdentity.Texts, locals: seq<Item>, t: Item, out: Item) {
    && (forall i :: MatchesFirst(x, locals, t, i) ==>
          && out.id == locals[i].id && out.provider == locals[i].provider
          && (locals[i].artwork.Some? ==> out.artwork == locals[i].artwork)
          && (locals[i].artwork.None? ==> out.artwork == t.artwork))
    && ((forall i :: !MatchesFirst(x, locals, t, i)) ==> out.id == t.id && out.provider == t.provider && out.artwork == t.artwork)
    && out.isTrack == t.isTrack && out.title == t.title && out.artist == t.artist && out.credits == t.credits
    && out.duration == t.duration && out.musicBrainz == t.musicBrainz && out.isrc == t.isrc && out.identity == t.identity
  }

  lemma TakenComesOut(x: MusicIdentity.Texts, locals: seq<Item>, t: Item)
    ensures ComesOut(x, locals, t, Taken(x, locals, t))
    ensures FirstMatch(x, locals, t).Some? <==> exists i :: MatchesFirst(x, locals, t, i)
    ensures forall i :: MatchesFirst(x, locals, t, i) ==> FirstMatch(x, locals, t) == Some(locals[i])
  {
    FirstMatchIs(x, locals, t);
    hide RecordingsMatch, FirstMatch;
    if FirstMatch(x, locals, t).Some? {
      var i :| 0 <= i < |locals| && locals[i] == FirstMatch(x, locals, t).value && RecordingsMatch(x, locals[i], t)
               && forall j :: 0 <= j < i ==> !RecordingsMatch(x, locals[j], t);
      assert MatchesFirst(x, locals, t, i);
    }
  }

  lemma UsedAreUsed(x: MusicIdentity.Texts, locals: seq<Item>, catalog: seq<Item>, l: Item)
    ensures l.id in Used(x, locals, Tracks(catalog)) <==> IsUsed(x, locals, catalog, l)
  {
    hide RecordingsMatch, FirstMatch, Used, Tracks;
    var tracks := Tracks(catalog);
    UsedHas(x, locals, tracks, l.id);
    forall t
      ensures FirstMatch(x, locals, t).Some? <==> exists i :: MatchesFirst(x, locals, t, i)
      ensures forall i :: MatchesFirst(x, locals, t, i) ==> FirstMatch(x, locals, t) == Some(locals[i])
    {
      TakenComesOut(x, locals, t);
    }
    if t :| t in tracks && FirstMatch(x, locals, t).Some? && FirstMatch(x, locals, t).value.id == l.id {
      var i :| MatchesFirst(x, locals, t, i);
      assert t in catalog && t.isTrack && locals[i].id == l.id;
    }
  }

  /** The list holds the catalogue's tracks at `at`, each as it comes out, and then the local items at
      `rest`. */
  ghost predicate Lists(x: MusicIdentity.Texts, locals: seq<Item>, catalog: seq<Item>, at: seq<nat>, rest: seq<nat>, out: seq<Item>) {
    && |out| == |at| + |rest|
    && (forall k :: 0 <= k < |at| ==> at[k] < |catalog| && ComesOut(x, locals, catalog[at[k]], out[k]))
    && (forall k :: 0 <= k < |rest| ==> rest[k] < |locals| && out[|at| + k] == locals[rest[k]])
  }

  /** The merged list holds the tracks of the catalogue, all of them and in their order, each as it comes
      out; after them, if wanted, the local items that are not used, all of them and in their order. */
  lemma MergedInOrder(x: MusicIdentity.Texts, locals: seq<Item>, catalog: seq<Item>, append: bool)
      returns (at: seq<nat>, rest: seq<nat>)
    ensures Picks(at, catalog, (t: Item) => t.isTrack)
    ensures if append then Picks(rest, locals, l => !IsUsed(x, locals, catalog, l)) else rest == []
    ensures Lists(x, locals, catalog, at, rest, Merge(x, locals, catalog, append))
  {
    hide Tracks, Except, Used, FirstMatch, IsUsed, ComesOut, Picks;
    at := TracksPicked(catalog);
    rest := [];
    if append {
      rest := UnusedPicked(x, locals, catalog);
    }
    forall k | 0 <= k < |at| ensures ComesOut(x, locals, catalog[at[k]], Taken(x, locals, catalog[at[k]])) {
      TakenComesOut(x, locals, catalog[at[k]]);
    }
  }

  lemma UnusedPicked(x: MusicIdentity.Texts, locals: seq<Item>, catalog: seq<Item>) returns (rest: seq<nat>)
    ensures Picks(rest, locals, l => !IsUsed(x, locals, catalog, l))
    ensures var unused := Except(locals, Used(x, locals, Tracks(catalog)));
            |unused| == |rest| && forall k :: 0 <= k < |rest| ==> rest[k] < |locals| && unused[k] == locals[rest[k]]
  {
    hide Tracks, Except, Used, FirstMatch, IsUsed, Picks;
    var used := Used(x, locals, Tracks(catalog));
    rest := ExceptPicked(locals, used);
    forall l: Item ensures l.id in used <==> IsUsed(x, locals, catalog, l) {
      UsedAreUsed(x, locals, catalog, l);
    }
    PicksSame(rest, locals, (l: Item) => l.id !in used, l => !IsUsed(x, locals, catalog, l));
  }

  /** When unmatched local items are appended, no local id is lost and none is invented: the ids of the
      result are the local ids and those of the catalogue tracks that no local track matches. */
  lemma IdsConserved(x: MusicIdentity.Texts, locals: seq<Item>, catalog: seq<Item>, id: string)
    ensures HasId(Merge(x, locals, catalog, true), id) <==>
            HasId(locals, id) || exists t :: t in catalog && t.isTrack && FirstMatch(x, locals, t).None? && t.id == id
  {
    hide FirstMatch, Used;
    var tracks := Tracks(catalog);
    var out, rest := TakenAll(x, locals, tracks), Except(locals, Used(x, locals, tracks));
    UsedHas(x, locals, tracks, id);
    forall t | t in tracks ensures Taken(x, locals, t) in out {
      var k :| 0 <= k < |tracks| && tracks[k] == t;
      assert out[k] == Taken(x, locals, t);
    }
    forall t | t in tracks && FirstMatch(x, locals, t).Some? ensures FirstMatch(x, locals, t).value in locals {
      FirstMatchIs(x, locals, t);
    }
    assert HasId(Merge(x, locals, catalog, true), id) <==> HasId(out, id) || HasId(rest, id);
    if l :| l in out && l.id == id {
      var k :| 0 <= k < |tracks| && out[k] == l;
      var t := tracks[k];
      assert t in tracks && l == Taken(x, locals, t);
      assert FirstMatch(x, locals, t).Some? ==> FirstMatch(x, locals, t).value in locals;
      assert HasId(locals, id) || (t in catalog && t.isTrack && FirstMatch(x, locals, t).None? && t.id == id);
    }
    assert HasId(rest, id) ==> HasId(locals, id);
    assert HasId(out, id) ==> HasId(locals, id) || exists t :: t in catalog && t.isTrack && FirstMatch(x, locals, t).None? && t.id == id;
    hide Tracks, TakenAll, Except;
    if l :| l in locals && l.id == id {
      if id in Used(x, locals, tracks) {
        var t :| t in tracks && FirstMatch(x, locals, t).Some? && FirstMatch(x, locals, t).value.id == id;
        assert Taken(x, locals, t) in out && Taken(x, locals, t).id == id;
      } else {
        assert l in rest;
      }
    }
    if t :| t in catalog && t.isTrack && FirstMatch(x, locals, t).None? && t.id == id {
      assert Taken(x, locals, t) in out;
    }
  }

  /** Every local item either stands unchanged in the result, or a catalogue track took over its id and
      its provider. */
  lemma LocalsKept(x: MusicIdentity.Texts, locals: seq<Item>, catalog: seq<Item>, l: Item)
    requires l in locals
    ensures l in Merge(x, locals, catalog, true) ||
            exists t, m :: t in catalog && t.isTrack && m in locals && m.id == l.id && RecordingsMatch(x, m, t)
                           && Combined(m, t) in Merge(x, locals, catalog, true)
  {
    var tracks := Tracks(catalog);
    UsedHas(x, locals, tracks, l.id);
    hide Used, RecordingsMatch;
    if l.id in Used(x, locals, tracks) {
      var t :| t in tracks && FirstMatch(x, locals, t).Some? && FirstMatch(x, locals, t).value.id == l.id;
      FirstMatchIs(x, locals, t);
      var m := FirstMatch(x, locals, t).value;
      hide FirstMatch;
      var k :| 0 <= k < |tracks| && tracks[k] == t;
      assert TakenAll(x, locals, tracks)[k] == Combined(m, t);
      assert Merge(x, locals, catalog, true)[k] == Combined(m, t);
      assert t in catalog && t.isTrack && m in locals && m.id == l.id && RecordingsMatch(x, m, t);
    }
  }
}
