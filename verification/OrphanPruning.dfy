/** The library health scan: which track records no media server lists any more, and their removal. */
module OrphanPruning {
  import opened Prelude
  import opened TextOrder

  type Id = string

  datatype ItemType = Track | OtherItem

  datatype Favorite = Favorite(user: string, connection: string, track: Id)

  /** A row of `media_favorites` or `media_ratings`. */
  datatype Mark = Mark(user: string, kind: ItemType, item: Id)

  datatype Data = Data(items: map<Id, ItemType>, sources: set<(Id, string)>, playlistTracks: set<Id>,
                       favorites: set<Favorite>, mediaFavorites: set<Mark>, ratings: set<Mark>)

  /** A row of the join of track items with their sources; no connection when an item has no source. */
  datatype Row = Row(id: Id, connection: Option<string>)

  // ---------------------------------------------------------------- who is an orphan

  /** Not listed, and every source is on a connection that was listed. */
  ghost predicate IsOrphan(d: Data, listed: set<Id>, connections: set<string>, id: Id) {
    && id in d.items && d.items[id].Track?
    && id !in listed
    && forall c :: (id, c) in d.sources ==> c in connections
  }

  /** The rows of the left join, in any order and any number of times. */
  ghost predicate IsJoin(d: Data, rows: seq<Row>) {
    && (forall id, c :: Row(id, Some(c)) in rows <==> id in d.items && d.items[id].Track? && (id, c) in d.sources)
    && (forall id :: Row(id, None) in rows <==> id in d.items && d.items[id].Track? && forall c :: (id, c) !in d.sources)
  }

  predicate Verifiable(row: Row, connections: set<string>) {
    row.connection.Some? ==> row.connection.value in connections
  }

  /** Whatever the order of the rows, the judgement of every id is the conjunction over its rows. */
  method FindOrphanedTracks(ghost d: Data, rows: seq<Row>, listed: set<Id>, connections: set<string>) returns (orphans: seq<Id>)
    requires IsJoin(d, rows)
    ensures forall id :: id in orphans <==> IsOrphan(d, listed, connections, id)
    ensures Ascending(orphans) && forall i, j :: 0 <= i < j < |orphans| ==> orphans[i] != orphans[j]
  {
    hide IsJoin, IsOrphan;
    var judged: map<Id, bool> := map[];
    var k := 0;
    while k < |rows|
      invariant 0 <= k <= |rows|
      invariant forall id :: id in judged <==> id !in listed && exists i :: 0 <= i < k && rows[i].id == id
      invariant forall id :: id in judged ==>
                               (judged[id] <==> forall i :: 0 <= i < k && rows[i].id == id ==> Verifiable(rows[i], connections))
    {
      var row := rows[k];
      if row.id !in listed {
        var previous := if row.id in judged then judged[row.id] else true;
        judged := judged[row.id := previous && Verifiable(row, connections)];
      }
      k := k + 1;
    }
    JudgedAreOrphans(d, rows, listed, connections, judged);
    orphans := Collect(judged);
  }

  lemma JudgedAreOrphans(d: Data, rows: seq<Row>, listed: set<Id>, connections: set<string>, judged: map<Id, bool>)
    requires IsJoin(d, rows)
    requires forall id :: id in judged <==> id !in listed && exists i :: 0 <= i < |rows| && rows[i].id == id
    requires forall id :: id in judged ==>
                            (judged[id] <==> forall i :: 0 <= i < |rows| && rows[i].id == id ==> Verifiable(rows[i], connections))
    ensures forall id :: id in judged && judged[id] <==> IsOrphan(d, listed, connections, id)
  {
    forall id ensures id in judged && judged[id] <==> IsOrphan(d, listed, connections, id) {
      if id in judged && judged[id] {
        var i :| 0 <= i < |rows| && rows[i].id == id;
        assert rows[i] in rows && rows[i] == Row(id, rows[i].connection);
        assert id in d.items && d.items[id].Track? by {
          if rows[i].connection.Some? {
            assert Row(id, Some(rows[i].connection.value)) in rows;
          } else {
            assert Row(id, None) in rows;
          }
        }
        forall c | (id, c) in d.sources ensures c in connections {
          assert Row(id, Some(c)) in rows;
          var j :| 0 <= j < |rows| && rows[j] == Row(id, Some(c));
          assert Verifiable(rows[j], connections);
        }
      }
      if IsOrphan(d, listed, connections, id) {
        if c :| (id, c) in d.sources {
          assert Row(id, Some(c)) in rows;
        } else {
          assert Row(id, None) in rows;
        }
        forall i | 0 <= i < |rows| && rows[i].id == id ensures Verifiable(rows[i], connections) {
          if rows[i].connection.Some? {
            assert Row(id, Some(rows[i].connection.value)) == rows[i] && rows[i] in rows;
          }
        }
      }
    }
  }

  method Collect(judged: map<Id, bool>) returns (orphans: seq<Id>)
    ensures forall id :: id in orphans <==> id in judged && judged[id]
    ensures Ascending(orphans) && forall i, j :: 0 <= i < j < |orphans| ==> orphans[i] != orphans[j]
  {
    var todo := judged.Keys;
    orphans := [];
    while todo != {}
      invariant todo <= judged.Keys
      invariant forall id :: id in orphans <==> id in judged && id !in todo && judged[id]
      invariant forall i, j :: 0 <= i < j < |orphans| ==> orphans[i] != orphans[j]
      decreases |todo|
    {
      var id :| id in todo;
      todo := todo - {id};
      if judged[id] {
        orphans := orphans + [id];
      }
    }
    SortAscends(orphans);
    SortKeepsDistinct(orphans);
    orphans := Sort(orphans);
  }

  lemma SortKeepsDistinct(ids: seq<Id>)
    requires forall i, j :: 0 <= i < j < |ids| ==> ids[i] != ids[j]
    ensures forall i, j :: 0 <= i < j < |Sort(ids)| ==> Sort(ids)[i] != Sort(ids)[j]
    ensures forall id :: id in Sort(ids) <==> id in ids
  {
    forall id ensures id in Sort(ids) <==> id in ids {
      assert id in Sort(ids) <==> id in multiset(Sort(ids));
    }
    DistinctCounts(ids);
    CountsDistinct(Sort(ids));
  }

  lemma {:induction false} DistinctCounts(ids: seq<Id>)
    requires forall i, j :: 0 <= i < j < |ids| ==> ids[i] != ids[j]
    ensures forall id :: multiset(ids)[id] <= 1
  {
    if ids != [] {
      DistinctCounts(ids[1..]);
      assert ids == [ids[0]] + ids[1..];
      assert ids[0] !in ids[1..];
    }
  }

  lemma {:induction false} CountsDistinct(ids: seq<Id>)
    requires forall id :: multiset(ids)[id] <= 1
    ensures forall i, j :: 0 <= i < j < |ids| ==> ids[i] != ids[j]
  {
    if ids != [] {
      assert ids == [ids[0]] + ids[1..];
      assert multiset(ids) == multiset{ids[0]} + multiset(ids[1..]);
      forall id ensures multiset(ids[1..])[id] <= 1 {
        assert multiset(ids)[id] <= 1;
      }
      CountsDistinct(ids[1..]);
      assert multiset(ids)[ids[0]] <= 1;
      forall j | 0 < j < |ids| ensures ids[j] != ids[0] {
        assert ids[j] == ids[1..][j - 1];
      }
    }
  }

  // ---------------------------------------------------------------- removing them

  /** The orphans that no playlist holds, as far as they are still there. */
  function Gone(d: Data, orphans: seq<Id>): set<Id> {
    set id | id in orphans && id !in d.playlistTracks
  }

  function LessFavorites(favorites: set<Favorite>, gone: set<Id>): (less: set<Favorite>)
    ensures |less| <= |favorites|
  {
    var less := set f | f in favorites && f.track !in gone;
    SubsetSize(less, favorites);
    less
  }

  function LessMarks(marks: set<Mark>, gone: set<Id>): (less: set<Mark>)
    ensures |less| <= |marks|
  {
    var less := set m | m in marks && !(m.kind.Track? && m.item in gone);
    SubsetSize(less, marks);
    less
  }

  function LessItems(items: map<Id, ItemType>, gone: set<Id>): (less: map<Id, ItemType>)
    ensures |less| <= |items|
  {
    var less := map id | id in items && (items[id] == Track ==> id !in gone) :: items[id];
    SubsetSize(less.Keys, items.Keys);
    less
  }

  /** The data without some tracks, their sources, their favourites and their ratings. */
  function Without(d: Data, gone: set<Id>): Data {
    Data(LessItems(d.items, gone),
         (set s | s in d.sources && !(s.0 in gone && s.0 in d.items && d.items[s.0].Track?)),
         d.playlistTracks, LessFavorites(d.favorites, gone), LessMarks(d.mediaFavorites, gone), LessMarks(d.ratings, gone))
  }

  /** Favourites and ratings of any kind name items of that kind, where they name an item at all. */
  ghost predicate WellTyped(d: Data) {
    forall m :: m in d.mediaFavorites + d.ratings && m.item in d.items ==> d.items[m.item] == m.kind
  }

  ghost predicate DanglingFavorite(d: Data, f: Favorite) {
    f in d.favorites && f.track !in d.items
  }

  ghost predicate DanglingMark(d: Data, m: Mark) {
    m in d.mediaFavorites + d.ratings && m.item !in d.items
  }

  /** Removing tracks leaves no favourite or rating pointing at nothing that did not before. */
  lemma NoNewDangling(d: Data, gone: set<Id>)
    requires WellTyped(d)
    ensures forall f :: DanglingFavorite(Without(d, gone), f) ==> DanglingFavorite(d, f)
    ensures forall m :: DanglingMark(Without(d, gone), m) ==> DanglingMark(d, m)
  {
    var d' := Without(d, gone);
    forall m | DanglingMark(d', m) ensures DanglingMark(d, m) {
      assert m in d.mediaFavorites + d.ratings;
    }
  }

  /** A mark whose kind is not that of its item is what makes the difference: when a track goes, such a
      mark is left pointing at nothing. */
  lemma MistypedMarkDangles(d: Data, gone: set<Id>, m: Mark)
    requires m in d.ratings && m.kind == OtherItem && m.item in d.items && d.items[m.item].Track?
    ensures DanglingMark(Without(d, gone), m) <==> m.item in gone
  {
  }

  datatype Summary = Summary(pruned: nat, removedFavorites: nat, removedRatings: nat, keptInPlaylists: nat, skipped: bool)

  class Database {
    var items: map<Id, ItemType>
    var sources: set<(Id, string)>
    var playlistTracks: set<Id>
    var favorites: set<Favorite>
    var mediaFavorites: set<Mark>
    var ratings: set<Mark>

    constructor (d: Data)
      ensures View() == d
    {
      items, sources, playlistTracks := d.items, d.sources, d.playlistTracks;
      favorites, mediaFavorites, ratings := d.favorites, d.mediaFavorites, d.ratings;
    }

    function View(): Data
      reads this
    {
      Data(items, sources, playlistTracks, favorites, mediaFavorites, ratings)
    }

    /** Anything that others do. */
    method Others()
      modifies this
    {
      items, sources, playlistTracks, favorites, mediaFavorites, ratings := *, *, *, *, *, *;
    }

    method Restore(d: Data)
      modifies this
      ensures View() == d
    {
      items, sources, playlistTracks := d.items, d.sources, d.playlistTracks;
      favorites, mediaFavorites, ratings := d.favorites, d.mediaFavorites, d.ratings;
    }

    /** The four deletions for one track; sources go with their item. */
    method DeleteTrack(id: Id) returns (favoritesGone: nat, ratingsGone: nat, itemsGone: nat)
      modifies this
      ensures View() == Without(old(View()), {id}) && playlistTracks == old(playlistTracks)
      ensures favoritesGone + |favorites| + |mediaFavorites| == |old(favorites)| + |old(mediaFavorites)|
      ensures ratingsGone + |ratings| == |old(ratings)| && itemsGone + |items| == |old(items)|
    {
      hide LessFavorites, LessMarks, LessItems;
      var f, m := LessFavorites(favorites, {id}), LessMarks(mediaFavorites, {id});
      favoritesGone := |favorites| - |f| + |mediaFavorites| - |m|;
      favorites, mediaFavorites := f, m;
      var r := LessMarks(ratings, {id});
      ratingsGone := |ratings| - |r|;
      ratings := r;
      sources := set s | s in sources && !(s.0 in {id} && s.0 in items && items[s.0].Track?);
      var i := LessItems(items, {id});
      itemsGone := |items| - |i|;
      items := i;
    }

    /** Removes the orphans that no playlist holds, if the transaction begins and commits.  What the
        summary counts is what the transaction removed, also when its commit fails: so the count of
        tracks is right exactly when it commits or there was no track to remove. */
    method PruneTracks(orphans: seq<Id>, begins: bool, commits: bool) returns (summary: Summary, kept: seq<Id>)
      modifies this
      ensures View() == if begins && commits then Without(old(View()), Gone(old(View()), orphans)) else old(View())
      ensures kept == if begins then InPlaylists(old(playlistTracks), orphans) else orphans
      ensures begins ==>
                && summary.keptInPlaylists == |kept|
                && var after := Without(old(View()), Gone(old(View()), orphans));
                  && summary.pruned + |after.items| == |old(items)|
                  && summary.removedFavorites + |after.favorites| + |after.mediaFavorites| == |old(favorites)| + |old(mediaFavorites)|
                  && summary.removedRatings + |after.ratings| == |old(ratings)|
      ensures begins ==> (summary.pruned + |items| == |old(items)| <==> commits || !RemovesTrack(old(View()), orphans))
      ensures !begins ==> summary == Summary(0, 0, 0, 0, false)
    {
      summary, kept := Summary(0, 0, 0, 0, false), [];
      ghost var before := View();
      WithoutNothing(before);
      TracksRemoved(before, orphans);
      if orphans == [] {
        return;
      }
      if !begins {
        return summary, orphans;
      }
      var snapshot := View();
      hide Without, Gone, InPlaylists, RemovesTrack;
      InPlaylistsNone(playlistTracks);
      var k := 0;
      assert orphans[..0] == [];
      while k < |orphans|
        invariant 0 <= k <= |orphans| && playlistTracks == before.playlistTracks
        invariant View() == Without(before, Gone(before, orphans[..k]))
        invariant kept == InPlaylists(before.playlistTracks, orphans[..k]) && summary.keptInPlaylists == |kept|
        invariant summary.pruned + |items| == |before.items|
        invariant summary.removedFavorites + |favorites| + |mediaFavorites| == |before.favorites| + |before.mediaFavorites|
        invariant summary.removedRatings + |ratings| == |before.ratings|
      {
        GoneNext(before, orphans, k);
        if orphans[k] in playlistTracks {
          summary := summary.(keptInPlaylists := summary.keptInPlaylists + 1);
          kept := kept + [orphans[k]];
        } else {
          var f, r, i := DeleteTrack(orphans[k]);
          summary := summary.(removedFavorites := summary.removedFavorites + f, removedRatings := summary.removedRatings + r,
                              pruned := summary.pruned + i);
        }
        k := k + 1;
      }
      assert orphans[..k] == orphans;
      if !commits {
        Restore(snapshot);
      }
    }
  }

  function InPlaylists(playlistTracks: set<Id>, orphans: seq<Id>): seq<Id> {
    if orphans == [] then []
    else
      var before, last := InPlaylists(playlistTracks, orphans[..|orphans| - 1]), orphans[|orphans| - 1];
      if last in playlistTracks then before + [last] else before
  }

  lemma InPlaylistsNone(playlistTracks: set<Id>)
    ensures InPlaylists(playlistTracks, []) == []
  {
  }

  lemma WithoutNothing(d: Data)
    ensures Gone(d, []) == {} && Without(d, {}) == d
  {
  }

  /** Some orphan that no playlist holds is still there, as a track. */
  predicate RemovesTrack(d: Data, orphans: seq<Id>) {
    exists id :: id in orphans && id !in d.playlistTracks && id in d.items && d.items[id].Track?
  }

  lemma TracksRemoved(d: Data, orphans: seq<Id>)
    ensures |Without(d, Gone(d, orphans)).items| == |d.items| <==> !RemovesTrack(d, orphans)
  {
    var gone := Gone(d, orphans);
    var less := LessItems(d.items, gone);
    if RemovesTrack(d, orphans) {
      var id :| id in orphans && id !in d.playlistTracks && id in d.items && d.items[id].Track?;
      assert id in gone && id !in less;
      SubsetSize(less.Keys, d.items.Keys - {id});
      assert |d.items.Keys - {id}| == |d.items.Keys| - 1;
      assert |less| == |less.Keys| && |d.items| == |d.items.Keys|;
    } else {
      assert forall id :: id in d.items && d.items[id].Track? ==> id !in gone;
      assert less.Keys == d.items.Keys;
    }
  }

  /** A transaction that does not commit: the track is still there, and reported as removed. */
  method FailedCommit() returns (summary: Summary, items: map<Id, ItemType>)
    ensures summary.pruned == 1 && items == map["track" := Track]
  {
    var d := Data(map["track" := Track], {}, {}, {}, {}, {});
    var db := new Database(d);
    var kept;
    assert Gone(d, ["track"]) == {"track"};
    assert "track" in ["track"] && "track" in d.items;
    assert RemovesTrack(d, ["track"]);
    assert LessItems(d.items, {"track"}) == map[];
    summary, kept := db.PruneTracks(["track"], true, false);
    items := db.items;
  }

  /** Removing tracks one by one removes them all. */
  lemma GoneNext(d: Data, orphans: seq<Id>, k: nat)
    requires k < |orphans|
    ensures InPlaylists(d.playlistTracks, orphans[..k + 1]) ==
            if orphans[k] in d.playlistTracks then InPlaylists(d.playlistTracks, orphans[..k]) + [orphans[k]]
            else InPlaylists(d.playlistTracks, orphans[..k])
    ensures orphans[k] in d.playlistTracks ==> Gone(d, orphans[..k + 1]) == Gone(d, orphans[..k])
    ensures orphans[k] !in d.playlistTracks ==>
              Without(d, Gone(d, orphans[..k + 1])) == Without(Without(d, Gone(d, orphans[..k])), {orphans[k]})
  {
    assert orphans[..k + 1] == orphans[..k] + [orphans[k]];
    assert orphans[..k + 1][..k] == orphans[..k];
    var a, b := Gone(d, orphans[..k]), Gone(d, orphans[..k + 1]);
    assert orphans[k] !in d.playlistTracks ==> b == a + {orphans[k]};
    WithoutTwice(d, a, orphans[k]);
  }

  lemma WithoutTwice(d: Data, gone: set<Id>, id: Id)
    ensures Without(Without(d, gone), {id}) == Without(d, gone + {id})
  {
  }

  // ---------------------------------------------------------------- the whole pass

  /** One scan, with or without pruning, from what the media servers listed and whether all of them
      answered.  Others may change the database between the query and the removal: `found` is the data
      from which the removal starts.  With pruning, after a complete listing and in a transaction that
      commits, exactly the tracks go that were judged orphans on the data that was scanned and that no
      playlist holds at the removal; otherwise nothing goes.  Nothing that pointed at an item points at
      nothing afterwards. */
  method ExecuteScan(db: Database, rows: seq<Row>, listed: set<Id>, connections: set<string>, degraded: bool, prune: bool,
                     begins: bool, commits: bool)
      returns (summary: Option<Summary>, orphans: seq<Id>, ghost judged: seq<Id>, ghost found: Data)
    requires IsJoin(db.View(), rows)
    modifies db
    ensures forall id :: id in judged <==> IsOrphan(old(db.View()), listed, connections, id)
    ensures db.View() == if prune && !degraded && begins && commits then Without(found, Gone(found, judged)) else found
    ensures prune && !degraded && begins ==> orphans == InPlaylists(found.playlistTracks, judged)
    ensures !prune || degraded || !begins ==> orphans == judged
    ensures summary.Some? <==> prune
    ensures prune && degraded ==> summary == Some(Summary(0, 0, 0, 0, true))
    ensures WellTyped(found) ==>
              && (forall f :: DanglingFavorite(db.View(), f) ==> DanglingFavorite(found, f))
              && (forall m :: DanglingMark(db.View(), m) ==> DanglingMark(found, m))
  {
    orphans := FindOrphanedTracks(db.View(), rows, listed, connections);
    judged := orphans;
    db.Others();
    found := db.View();
    if WellTyped(found) {
      NoNewDangling(found, Gone(found, judged));
    }
    hide IsOrphan, Without, Gone;
    summary := None;
    if prune {
      if degraded {
        summary := Some(Summary(0, 0, 0, 0, true));
      } else {
        var done, kept := db.PruneTracks(orphans, begins, commits);
        summary, orphans := Some(done), kept;
      }
    }
  }

  /** So over a whole pass no track is lost that was listed, that has a source the servers were not asked
      for, or that a playlist holds; and nothing but tracks is lost. */
  lemma RemovedWereOrphans(scanned: Data, listed: set<Id>, connections: set<string>, judged: seq<Id>, found: Data, id: Id)
    requires forall i :: i in judged <==> IsOrphan(scanned, listed, connections, i)
    requires id in found.items && id !in Without(found, Gone(found, judged)).items
    ensures found.items[id].Track? && id !in listed && id !in found.playlistTracks
    ensures forall c :: (id, c) in scanned.sources ==> c in connections
  {
    assert IsOrphan(scanned, listed, connections, id);
  }
}
