/** The playlist import: a loop over the entries of a manifest that saves a checkpoint after every
    download, may be stopped anywhere, and starts again from the last saved record. */
module PlaylistImport {
  import opened Prelude

  datatype EntryStatus =
    | Pending | Downloaded | Ready | Completed
    | FailedMetadataMissing | FailedDownload | FailedTagging | FailedIndexing | FailedLinking

  datatype Source = Source(title: string, artist: string, url: string)

  /** `provider` is the position that the provider track id is printed from. */
  datatype Entry = Entry(position: nat, source: Source, status: EntryStatus,
                         file: Option<string>, provider: Option<nat>, error: Option<string>)

  datatype JobStatus = JobQueued | JobRunning | JobCompleted | JobPartial | JobFailed

  datatype Stage = StageQueued | StageFetching | StageDownloading | StageScanning | StageCompleted

  datatype Counts = Counts(expected: Option<nat>, downloaded: Option<nat>, completed: Option<nat>,
                           imported: Option<nat>, failed: Option<nat>)

  datatype Job = Job(status: JobStatus, stage: Stage, name: Option<string>, description: Option<string>,
                     counts: Counts, current: Option<nat>, currentName: Option<string>,
                     error: Option<string>, manifest: Option<seq<Entry>>)

  datatype Record = Record(job: Job, url: string, disabled: bool, unreadable: bool)

  datatype Download = Files(first: Option<string>) | Refused(message: string) | ProcessBroken(message: string)

  datatype Playlist = Tracks(count: nat) | NoTracks(message: string)

  datatype Link = Link(name: string, description: string)

  /** What the import cannot see into: text trimming, the playlist address parser, and a downloader
      whose answer to one entry is always the same. */
  datatype World = World(trim: string -> string, parse: string -> Option<Link>,
                         download: (nat, Source) -> Download, playlist: string -> Playlist)

  /** How a run ended.  Every ending but `Finished` and `Reported` leaves the job to be run again,
      and `Reported` tells of a failure whose record may not have been saved. */
  datatype Ending = Killed | NotSaved | Cancelled(at: nat, saved: bool) | Finished(job: Job) | Reported(message: string)

  // ---------------------------------------------------------------- one uninterrupted run

  predicate NoMetadata(w: World, s: Source) {
    w.trim(s.title) == "" && w.trim(s.artist) == "" && w.trim(s.url) == ""
  }

  predicate NeedsDownload(w: World, e: Entry) {
    e.status == Pending && !NoMetadata(w, e.source)
  }

  predicate IsFailure(s: EntryStatus) {
    s in {FailedMetadataMissing, FailedDownload, FailedTagging, FailedIndexing, FailedLinking}
  }

  /** The final form of one entry, by itself. */
  function Settle(w: World, e: Entry): Entry {
    match e.status
    case Completed => e
    case Ready => e.(status := Completed)
    case Downloaded => e.(status := Completed)
    case Pending =>
      if NoMetadata(w, e.source) then
        e.(status := FailedMetadataMissing, error := Some("Could not resolve canonical Spotify track metadata"))
      else (match w.download(e.position, e.source)
            case Files(first) => e.(status := Completed, file := first, provider := Some(e.position))
            case Refused(m) => e.(status := FailedDownload, error := Some(m))
            case ProcessBroken(m) => e.(status := FailedDownload, error := Some(m)))
    case _ => e
  }

  predicate Breaks(w: World, e: Entry) {
    NeedsDownload(w, e) && w.download(e.position, e.source).ProcessBroken?
  }

  function CountStatus(entries: seq<Entry>, statuses: set<EntryStatus>): (n: nat)
    ensures n <= |entries|
    ensures n > 0 <==> exists i :: 0 <= i < |entries| && entries[i].status in statuses
  {
    if entries == [] then 0
    else CountStatus(entries[1..], statuses) + (if entries[0].status in statuses then 1 else 0)
  }

  const FAILURES: set<EntryStatus> := {FailedMetadataMissing, FailedDownload, FailedTagging, FailedIndexing, FailedLinking}

  function FirstError(entries: seq<Entry>): string {
    if entries == [] then "Spotify playlist import failed"
    else if entries[0].error.Some? then entries[0].error.value
    else FirstError(entries[1..])
  }

  function Counted(job: Job, entries: seq<Entry>): Job {
    var done := Some(CountStatus(entries, {Completed}));
    job.(counts := Counts(job.counts.expected, done, done, done, Some(CountStatus(entries, FAILURES))))
  }

  function Named(w: World, job: Job, e: Entry): Job {
    job.(current := Some(e.position), currentName := Some(w.trim(e.source.artist) + " - " + w.trim(e.source.title)))
  }

  function Fail(job: Job, message: string): Job {
    job.(status := JobFailed, stage := StageCompleted, error := Some(message))
  }

  /** The rest of the loop, from entry `i` on.  The job's own manifest plays no part. */
  function From(w: World, job: Job, entries: seq<Entry>, i: nat): Job
    requires i <= |entries|
    decreases |entries| - i
  {
    if i == |entries| then Closed(Counted(job, entries), entries)
    else
      var e := entries[i];
      var entries' := entries[i := Settle(w, e)];
      if e.status != Pending then From(w, job, entries', i + 1)
      else if NoMetadata(w, e.source) then From(w, Named(w, job, e), entries', i + 1)
      else if Breaks(w, e) then Broken(Named(w, job, e), entries', w.download(e.position, e.source).message)
      else From(w, Counted(Named(w, job, e), entries'), entries', i + 1)
  }

  function Broken(job: Job, entries: seq<Entry>, message: string): Job {
    var counts := job.counts.(failed := Some(CountStatus(entries, {FailedDownload})));
    Fail(job, message).(counts := counts, manifest := Some(entries))
  }

  function Closed(job: Job, entries: seq<Entry>): Job {
    if CountStatus(entries, {Completed}) == 0 && CountStatus(entries, FAILURES) > 0 then
      Fail(job, FirstError(entries)).(manifest := Some(entries))
    else
      job.(stage := StageCompleted, manifest := Some(entries),
           status := if CountStatus(entries, FAILURES) > 0 then JobPartial else JobCompleted)
  }

  function Start(job: Job, link: Link): Job {
    job.(status := JobRunning, stage := StageDownloading,
         name := if job.name.None? then Some(link.name) else job.name,
         description := if job.description.None? then Some(link.description) else job.description)
  }

  function Expect(job: Job, n: nat): Job {
    job.(counts := job.counts.(expected := Some(n)), manifest := None)
  }

  function Whole(job: Job, p: Playlist): Job {
    match p
    case Tracks(n) =>
      job.(counts := Counts(Some(n), Some(n), Some(n), Some(n), Some(0)), stage := StageCompleted, status := JobCompleted)
    case NoTracks(m) => Fail(job, m)
  }

  /** The job that one uninterrupted run on record `r` leaves behind. */
  function Finish(w: World, r: Record): Job {
    if r.unreadable || r.job.status == JobFailed || r.job.status == JobCompleted then r.job
    else if r.disabled then Fail(r.job, "Import owner is disabled")
    else match w.parse(r.url)
      case None => Fail(r.job, "Stored playlist URL is invalid")
      case Some(link) =>
        var job := Start(r.job, link);
        match job.manifest
        case None => Whole(job, w.playlist(r.url))
        case Some(entries) => From(w, Expect(job, |entries|), entries, 0)
  }

  // ---------------------------------------------------------------- what an uninterrupted run does

  /** The first entry whose download breaks the downloader, or the end. */
  function Cut(w: World, entries: seq<Entry>, i: nat): (cut: nat)
    requires i <= |entries|
    ensures i <= cut <= |entries|
    ensures forall j :: i <= j < cut ==> !Breaks(w, entries[j])
    ensures cut < |entries| ==> Breaks(w, entries[cut])
    decreases |entries| - i
  {
    if i == |entries| || Breaks(w, entries[i]) then i else Cut(w, entries, i + 1)
  }

  /** Every entry up to the one that breaks the downloader gets its own final form, and no other entry
      changes.  The job fails when the downloader broke or nothing was completed and something failed;
      it is partial when only some entries failed. */
  lemma {:induction false} FromPointwise(w: World, job: Job, entries: seq<Entry>, i: nat)
    requires i <= |entries|
    ensures var out, cut := From(w, job, entries, i), Cut(w, entries, i);
            out.manifest.Some? && |out.manifest.value| == |entries|
            && (forall j :: 0 <= j < |entries| ==>
                  out.manifest.value[j] == if i <= j <= cut then Settle(w, entries[j]) else entries[j])
            && out.stage == StageCompleted
            && (var failed, done := CountStatus(out.manifest.value, FAILURES), CountStatus(out.manifest.value, {Completed});
                out.status == (if cut < |entries| || (done == 0 && failed > 0) then JobFailed
                               else if failed > 0 then JobPartial else JobCompleted))
    decreases |entries| - i
  {
    hide CountStatus, FirstError, Settle, Named, Counted, NoMetadata;
    if i < |entries| && !Breaks(w, entries[i]) {
      var e := entries[i];
      var entries' := entries[i := Settle(w, e)];
      var job' := if e.status != Pending then job
                  else if NoMetadata(w, e.source) then Named(w, job, e) else Counted(Named(w, job, e), entries');
      SameCut(w, entries, entries', i + 1);
      FromPointwise(w, job', entries', i + 1);
    }
  }

  lemma {:induction false} SameCut(w: World, a: seq<Entry>, b: seq<Entry>, i: nat)
    requires |a| == |b| && i <= |a| && a[i..] == b[i..]
    ensures Cut(w, a, i) == Cut(w, b, i)
    decreases |a| - i
  {
    if i < |a| {
      assert a[i] == a[i..][0] && b[i] == b[i..][0];
      assert a[i + 1..] == a[i..][1..] && b[i + 1..] == b[i..][1..];
      SameCut(w, a, b, i + 1);
    }
  }

  /** A settled entry keeps its outcome: only `READY` and `DOWNLOADED` are renamed to `COMPLETED`. */
  lemma SettledEntriesKeepOutcome(w: World, r: Record, j: nat)
    requires r.job.manifest.Some? && j < |r.job.manifest.value| && r.job.manifest.value[j].status != Pending
    ensures var out, e := Finish(w, r), r.job.manifest.value[j];
            out.manifest.Some? && |out.manifest.value| == |r.job.manifest.value|
            && (out.manifest.value[j] == e
                || (e.status in {Ready, Downloaded} && out.manifest.value[j] == e.(status := Completed)))
  {
    if w.parse(r.url).Some? {
      FromPointwise(w, Expect(Start(r.job, w.parse(r.url).value), |r.job.manifest.value|), r.job.manifest.value, 0);
    }
    hide From, CountStatus, FirstError;
  }

  // ---------------------------------------------------------------- what becomes of an entry, of a job

  /** Title, artist and address of the source are blank. */
  predicate Blank(w: World, s: Source) {
    forall text :: text in {s.title, s.artist, s.url} ==> w.trim(text) == ""
  }

  /** A pending entry whose download breaks the downloader. */
  predicate BreaksDownloader(w: World, e: Entry) {
    e.status == Pending && !Blank(w, e.source) && w.download(e.position, e.source).ProcessBroken?
  }

  /** The job has a manifest and nothing that ends the import before its loop. */
  predicate HasLoop(w: World, r: Record) {
    && !r.unreadable && r.job.status != JobFailed && r.job.status != JobCompleted && !r.disabled
    && w.parse(r.url).Some? && r.job.manifest.Some?
  }

  lemma {:induction false} CutIsFirst(w: World, entries: seq<Entry>, i: nat, j: nat)
    requires i <= j < |entries| && forall k :: i <= k < j ==> !BreaksDownloader(w, entries[k])
    ensures j <= Cut(w, entries, i)
    decreases j - i
  {
    if i < j {
      CutIsFirst(w, entries, i + 1, j);
    }
  }

  /** A pending entry, as far as the downloader is not broken before its turn: it is completed, with the
      first of its files and its own position, exactly when the download gave files; it has failed with
      the message of the download exactly when it did not; and it lacks metadata exactly when its source
      is blank, which is not downloaded.  Its source stays as it is. */
  lemma PendingOutcome(w: World, r: Record, j: nat)
    requires HasLoop(w, r) && j < |r.job.manifest.value| && r.job.manifest.value[j].status == Pending
    requires forall k :: 0 <= k < j ==> !BreaksDownloader(w, r.job.manifest.value[k])
    ensures var out, e := Finish(w, r), r.job.manifest.value[j];
            var answer := w.download(e.position, e.source);
            && out.manifest.Some? && |out.manifest.value| == |r.job.manifest.value|
            && var o := out.manifest.value[j];
              && o.position == e.position && o.source == e.source
              && (o.status == FailedMetadataMissing <==> Blank(w, e.source))
              && (o.status == Completed <==> !Blank(w, e.source) && answer.Files?)
              && (o.status == FailedDownload <==> !Blank(w, e.source) && !answer.Files?)
              && (o.status == Completed ==> o.file == answer.first && o.provider == Some(e.position) && o.error == e.error)
              && (o.status == FailedDownload ==> o.error == Some(answer.message) && o.file == e.file && o.provider == e.provider)
              && (o.status == FailedMetadataMissing ==> o.error == Some("Could not resolve canonical Spotify track metadata"))
  {
    hide From, CountStatus, FirstError;
    var entries := r.job.manifest.value;
    FromPointwise(w, Expect(Start(r.job, w.parse(r.url).value), |entries|), entries, 0);
    CutIsFirst(w, entries, 0, j);
  }

  /** Behind the entry that breaks the downloader nothing changes. */
  lemma AfterBreakUntouched(w: World, r: Record, i: nat, j: nat)
    requires HasLoop(w, r) && i < j < |r.job.manifest.value| && BreaksDownloader(w, r.job.manifest.value[i])
    ensures Finish(w, r).manifest.Some? && j < |Finish(w, r).manifest.value|
    ensures Finish(w, r).manifest.value[j] == r.job.manifest.value[j]
  {
    hide From, CountStatus, FirstError;
    var entries := r.job.manifest.value;
    FromPointwise(w, Expect(Start(r.job, w.parse(r.url).value), |entries|), entries, 0);
    CutAtMost(w, entries, 0, i);
  }

  lemma {:induction false} CutAtMost(w: World, entries: seq<Entry>, i: nat, j: nat)
    requires i <= j < |entries| && BreaksDownloader(w, entries[j])
    ensures Cut(w, entries, i) <= j
    decreases j - i
  {
    if i < j {
      CutAtMost(w, entries, i + 1, j);
    }
  }

  /** The positions of a manifest whose entries have one of some statuses. */
  function Having(entries: seq<Entry>, statuses: set<EntryStatus>): set<int> {
    Where(entries, (e: Entry) => e.status in statuses)
  }

  lemma {:induction false} CountIsSize(entries: seq<Entry>, statuses: set<EntryStatus>)
    ensures CountStatus(entries, statuses) == |Having(entries, statuses)|
  {
    hide Where;
    WhereFirst(entries, (e: Entry) => e.status in statuses);
    if entries != [] {
      CountIsSize(entries[1..], statuses);
    }
  }

  /** The error of a job whose import failed without breaking the downloader is that of the first entry
      that has one. */
  lemma {:induction false} FirstErrorIs(entries: seq<Entry>)
    ensures (forall i :: 0 <= i < |entries| ==> entries[i].error.None?) ==> FirstError(entries) == "Spotify playlist import failed"
    ensures forall i :: 0 <= i < |entries| && entries[i].error.Some? && (forall j :: 0 <= j < i ==> entries[j].error.None?) ==>
              FirstError(entries) == entries[i].error.value
  {
    if entries != [] && entries[0].error.None? {
      FirstErrorIs(entries[1..]);
      forall i | 0 <= i < |entries| && entries[i].error.Some? && forall j :: 0 <= j < i ==> entries[j].error.None?
        ensures FirstError(entries) == entries[i].error.value
      {
        assert entries[1..][i - 1] == entries[i];
        assert forall j :: 0 <= j < i - 1 ==> entries[1..][j] == entries[j + 1];
      }
    }
  }

  /** How the job comes out of a loop that nothing breaks: its counts are those of its final manifest, and
      it has failed exactly when nothing is completed and something failed, is partial exactly when
      something of each is there, or nothing but failures is missing. */
  lemma JobOutcome(w: World, r: Record)
    requires HasLoop(w, r) && forall k :: 0 <= k < |r.job.manifest.value| ==> !BreaksDownloader(w, r.job.manifest.value[k])
    ensures var out := Finish(w, r);
            out.manifest.Some?
            && var done, failed := |Having(out.manifest.value, {Completed})|, |Having(out.manifest.value, FAILURES)|;
              && out.counts == Counts(Some(|r.job.manifest.value|), Some(done), Some(done), Some(done), Some(failed))
              && out.stage == StageCompleted
              && (out.status == JobFailed <==> done == 0 && failed > 0)
              && (out.status == JobPartial <==> done > 0 && failed > 0)
              && (out.status == JobCompleted <==> failed == 0)
              && (out.status == JobFailed ==> out.error == Some(FirstError(out.manifest.value)))
              && (out.status != JobFailed ==> out.error == r.job.error)
              && (r.job.name.Some? ==> out.name == r.job.name) && (r.job.name.None? ==> out.name == Some(w.parse(r.url).value.name))
              && (r.job.description.Some? ==> out.description == r.job.description)
              && (r.job.description.None? ==> out.description == Some(w.parse(r.url).value.description))
  {
    hide CountStatus, FirstError;
    var entries := r.job.manifest.value;
    var job := Expect(Start(r.job, w.parse(r.url).value), |entries|);
    Unbroken(w, job, entries, 0);
    CountIsSize(Finish(w, r).manifest.value, {Completed});
    CountIsSize(Finish(w, r).manifest.value, FAILURES);
  }

  lemma {:induction false} Unbroken(w: World, job: Job, entries: seq<Entry>, i: nat)
    requires i <= |entries| && forall k :: i <= k < |entries| ==> !BreaksDownloader(w, entries[k])
    ensures var out := From(w, job, entries, i);
            out.manifest.Some?
            && var m := out.manifest.value;
              var done, failed := CountStatus(m, {Completed}), CountStatus(m, FAILURES);
              && out.counts == Counts(job.counts.expected, Some(done), Some(done), Some(done), Some(failed))
              && out.stage == StageCompleted && out.name == job.name && out.description == job.description
              && out.status == (if failed == 0 then JobCompleted else if done == 0 then JobFailed else JobPartial)
              && out.error == (if failed > 0 && done == 0 then Some(FirstError(m)) else job.error)
    decreases |entries| - i
  {
    hide CountStatus, FirstError;
    if i < |entries| {
      var e := entries[i];
      var entries' := entries[i := Settle(w, e)];
      var job' := if e.status != Pending then job
                  else if NoMetadata(w, e.source) then Named(w, job, e) else Counted(Named(w, job, e), entries');
      assert forall k :: i + 1 <= k < |entries| ==> entries'[k] == entries[k];
      Unbroken(w, job', entries', i + 1);
    }
  }

  /** Without such a break, the track that the job names last is that of the last entry that was pending,
      or the one it named before where none was. */
  lemma LastNamed(w: World, r: Record)
    requires HasLoop(w, r) && forall k :: 0 <= k < |r.job.manifest.value| ==> !BreaksDownloader(w, r.job.manifest.value[k])
    ensures forall j :: 0 <= j < |r.job.manifest.value| && r.job.manifest.value[j].status == Pending
                        && (forall k :: j < k < |r.job.manifest.value| ==> r.job.manifest.value[k].status != Pending) ==>
              var out, e := Finish(w, r), r.job.manifest.value[j];
              out.current == Some(e.position) && out.currentName == Some(w.trim(e.source.artist) + " - " + w.trim(e.source.title))
    ensures (forall j :: 0 <= j < |r.job.manifest.value| ==> r.job.manifest.value[j].status != Pending) ==>
              Finish(w, r).current == r.job.current && Finish(w, r).currentName == r.job.currentName
  {
    hide CountStatus, FirstError;
    var entries := r.job.manifest.value;
    LastFrom(w, Expect(Start(r.job, w.parse(r.url).value), |entries|), entries, 0);
  }

  lemma {:induction false} LastFrom(w: World, job: Job, entries: seq<Entry>, i: nat)
    requires i <= |entries| && forall k :: i <= k < |entries| ==> !BreaksDownloader(w, entries[k])
    ensures forall j :: i <= j < |entries| && entries[j].status == Pending && (forall k :: j < k < |entries| ==> entries[k].status != Pending) ==>
              var out, e := From(w, job, entries, i), entries[j];
              out.current == Some(e.position) && out.currentName == Some(w.trim(e.source.artist) + " - " + w.trim(e.source.title))
    ensures (forall j :: i <= j < |entries| ==> entries[j].status != Pending) ==>
              From(w, job, entries, i).current == job.current && From(w, job, entries, i).currentName == job.currentName
    decreases |entries| - i
  {
    hide CountStatus, FirstError;
    if i < |entries| {
      var e := entries[i];
      var entries' := entries[i := Settle(w, e)];
      var job' := if e.status != Pending then job
                  else if NoMetadata(w, e.source) then Named(w, job, e) else Counted(Named(w, job, e), entries');
      assert forall k :: i + 1 <= k < |entries| ==> entries'[k] == entries[k];
      LastFrom(w, job', entries', i + 1);
    }
  }

  /** How the job comes out when an entry breaks the downloader. */
  lemma BrokenOutcome(w: World, r: Record, i: nat)
    requires HasLoop(w, r) && i < |r.job.manifest.value| && BreaksDownloader(w, r.job.manifest.value[i])
    requires forall k :: 0 <= k < i ==> !BreaksDownloader(w, r.job.manifest.value[k])
    ensures var out, e := Finish(w, r), r.job.manifest.value[i];
            && out.status == JobFailed && out.stage == StageCompleted
            && out.error == Some(w.download(e.position, e.source).message)
            && out.current == Some(e.position) && out.currentName == Some(w.trim(e.source.artist) + " - " + w.trim(e.source.title))
            && out.manifest.Some? && out.counts.failed == Some(|Having(out.manifest.value, {FailedDownload})|)
  {
    hide CountStatus, FirstError;
    var entries := r.job.manifest.value;
    BrokenFrom(w, Expect(Start(r.job, w.parse(r.url).value), |entries|), entries, 0, i);
    CountIsSize(Finish(w, r).manifest.value, {FailedDownload});
  }

  lemma {:induction false} BrokenFrom(w: World, job: Job, entries: seq<Entry>, i: nat, at: nat)
    requires i <= at < |entries| && BreaksDownloader(w, entries[at])
    requires forall k :: i <= k < at ==> !BreaksDownloader(w, entries[k])
    ensures var out, e := From(w, job, entries, i), entries[at];
            && out.status == JobFailed && out.stage == StageCompleted
            && out.error == Some(w.download(e.position, e.source).message)
            && out.current == Some(e.position) && out.currentName == Some(w.trim(e.source.artist) + " - " + w.trim(e.source.title))
            && out.manifest.Some? && out.counts.failed == Some(CountStatus(out.manifest.value, {FailedDownload}))
    decreases at - i
  {
    hide CountStatus, FirstError;
    if i < at {
      var e := entries[i];
      var entries' := entries[i := Settle(w, e)];
      var job' := if e.status != Pending then job
                  else if NoMetadata(w, e.source) then Named(w, job, e) else Counted(Named(w, job, e), entries');
      assert forall k :: i + 1 <= k < |entries| ==> entries'[k] == entries[k];
      BrokenFrom(w, job', entries', i + 1, at);
    }
  }

  /** The endings of a run that needs no loop. */
  lemma OtherOutcomes(w: World, r: Record)
    requires !r.unreadable && r.job.status != JobFailed && r.job.status != JobCompleted
    ensures r.disabled ==> Finish(w, r).status == JobFailed && Finish(w, r).error == Some("Import owner is disabled")
    ensures !r.disabled && w.parse(r.url).None? ==>
              Finish(w, r).status == JobFailed && Finish(w, r).error == Some("Stored playlist URL is invalid")
    ensures r.disabled || w.parse(r.url).None? ==> Finish(w, r).manifest == r.job.manifest && Finish(w, r).counts == r.job.counts
    ensures !r.disabled && w.parse(r.url).Some? && r.job.manifest.None? ==>
              var out, answer := Finish(w, r), w.playlist(r.url);
              && out.stage == StageCompleted && out.manifest == None
              && (out.status == JobCompleted <==> answer.Tracks?) && (out.status == JobFailed <==> answer.NoTracks?)
              && (answer.Tracks? ==> var n := Some(answer.count); out.counts == Counts(n, n, n, n, Some(0)) && out.error == r.job.error)
              && (answer.NoTracks? ==> out.error == Some(answer.message) && out.counts == r.job.counts)
  {
  }

  // ---------------------------------------------------------------- resuming

  predicate SettledUpTo(entries: seq<Entry>, i: nat)
    requires i <= |entries|
  {
    forall j :: 0 <= j < i ==> entries[j].status !in {Pending, Ready, Downloaded}
  }

  /** A run that finds the first entries settled arrives behind them with nothing changed. */
  lemma {:induction false} SkipSettled(w: World, job: Job, entries: seq<Entry>, i: nat, k: nat)
    requires i <= k <= |entries| && SettledUpTo(entries, k)
    ensures From(w, job, entries, i) == From(w, job, entries, k)
    decreases k - i
  {
    if i < k {
      assert entries[i := Settle(w, entries[i])] == entries;
      SkipSettled(w, job, entries, i + 1, k);
    }
  }

  /** The job as a run holds it inside the loop. */
  predicate InLoop(w: World, url: string, job: Job, n: nat) {
    && w.parse(url).Some?
    && job == Expect(Start(job, w.parse(url).value), n)
  }

  /** What a saved checkpoint is worth: starting again from it is going on. */
  lemma Resume(w: World, r: Record, job: Job, entries: seq<Entry>, i: nat)
    requires !r.unreadable && !r.disabled && i <= |entries| && SettledUpTo(entries, i)
    requires InLoop(w, r.url, job, |entries|) && r.job == job.(manifest := Some(entries))
    ensures Finish(w, r) == From(w, job, entries, i)
  {
    SkipSettled(w, job, entries, 0, i);
    hide From;
  }

  /** Finishing is final: a finished job that is run again stays as it is. */
  lemma FinishIdempotent(w: World, r: Record)
    ensures Finish(w, r.(job := Finish(w, r))) == Finish(w, r)
  {
    hide From, CountStatus, FirstError;
    if !r.unreadable && !r.disabled && r.job.status !in {JobFailed, JobCompleted} && w.parse(r.url).Some? && r.job.manifest.Some? {
      PartialAgain(w, r);
    }
  }

  lemma PartialAgain(w: World, r: Record)
    requires !r.unreadable && !r.disabled && r.job.status !in {JobFailed, JobCompleted} && w.parse(r.url).Some? && r.job.manifest.Some?
    ensures Finish(w, r).status == JobPartial ==> Finish(w, r.(job := Finish(w, r))) == Finish(w, r)
    ensures Finish(w, r).status in {JobFailed, JobCompleted, JobPartial}
  {
    hide CountStatus, FirstError;
    var entries, link := r.job.manifest.value, w.parse(r.url).value;
    var n := |entries|;
    var start := Expect(Start(r.job, link), n);
    var out := Finish(w, r);
    assert out == From(w, start, entries, 0);
    FromPointwise(w, start, entries, 0);
    if out.status == JobPartial {
      var manifest := out.manifest.value;
      PartialStays(w, start, entries, 0, manifest);
      hide From;
      assert forall j :: 0 <= j < n ==> manifest[j] == Settle(w, entries[j]);
      var again := Expect(Start(out, link), n);
      assert Finish(w, r.(job := out)) == From(w, again, manifest, 0);
      SkipSettled(w, again, manifest, 0, n);
      FromEnd(w, again, manifest);
      assert Closed(Counted(again, manifest), manifest) == Closed(Counted(out, manifest), manifest);
    }
  }

  lemma FromEnd(w: World, job: Job, entries: seq<Entry>)
    ensures From(w, job, entries, |entries|) == Closed(Counted(job, entries), entries)
  {
  }

  /** A partial result differs from the running job only in what closing it sets. */
  lemma {:induction false} PartialStays(w: World, job: Job, entries: seq<Entry>, i: nat, out: seq<Entry>)
    requires i <= |entries| && From(w, job, entries, i).status == JobPartial
    requires From(w, job, entries, i).manifest == Some(out)
    requires job.status == JobRunning && job.stage == StageDownloading && job.manifest == None
    ensures var f := From(w, job, entries, i);
            f == Closed(Counted(f, out), out) && f.name == job.name && f.description == job.description
            && f.counts.expected == job.counts.expected
            && f.error == job.error
    decreases |entries| - i
  {
    if i < |entries| && !Breaks(w, entries[i]) {
      var e := entries[i];
      var entries' := entries[i := Settle(w, e)];
      var job' := if e.status != Pending then job
                  else if NoMetadata(w, e.source) then Named(w, job, e) else Counted(Named(w, job, e), entries');
      PartialStays(w, job', entries', i + 1, out);
    }
  }

  // ---------------------------------------------------------------- the run itself

  function Todo(w: World, entries: seq<Entry>): nat {
    if entries == [] then 0
    else Todo(w, entries[1..]) + (if NeedsDownload(w, entries[0]) then 1 else 0)
  }

  function TodoOf(w: World, job: Job): nat {
    if job.manifest.Some? then Todo(w, job.manifest.value) else 0
  }

  lemma {:induction false} TodoUpdate(w: World, entries: seq<Entry>, i: nat, e: Entry)
    requires i < |entries| && !NeedsDownload(w, e)
    ensures Todo(w, entries[i := e]) == Todo(w, entries) - (if NeedsDownload(w, entries[i]) then 1 else 0)
  {
    if i == 0 {
      assert entries[i := e][1..] == entries[1..];
    } else {
      assert entries[i := e][1..] == entries[1..][i - 1 := e];
      TodoUpdate(w, entries[1..], i - 1, e);
    }
  }

  datatype Mishap = NoMishap | StopBefore | CancelBefore | StopAfterDownload

  /** What happens to a run from outside: at each entry of the manifest, at each save (0 is the first,
      `i + 1` the one after entry `i`), and before the loop. */
  datatype Fate = Fate(entry: nat -> Mishap, save: nat -> bool, early: bool)

  ghost predicate Untroubled(f: Fate) {
    !f.early && (forall i :: f.entry(i) == NoMishap) && (forall i :: f.save(i))
  }

  predicate Smooth(ending: Ending, lost: nat) {
    lost == 0 && (ending.Finished? || ending.Reported?)
  }

  /** The saved record.  A save may fail, and then changes nothing. */
  class Checkpoints {
    var record: Record

    constructor (record: Record)
      ensures this.record == record
    {
      this.record := record;
    }

    method Save(job: Job, works: bool) returns (ok: bool)
      modifies this
      ensures ok == works && record == if ok then old(record).(job := job) else old(record)
    {
      if works {
        record := record.(job := job);
      }
      return works;
    }
  }

  /** What is reported of a record that has failed or cannot be read: its error, if it has one. */
  function Message(r: Record): string {
    if r.job.error.Some? then r.job.error.value
    else if r.unreadable then "Stored import checkpoint is invalid; original manifest retained"
    else "Spotify playlist import failed"
  }

  predicate SavedCancel(ending: Ending) {
    ending.Cancelled? && ending.saved
  }

  /** What one run leaves, however it ends.  Unless it was cancelled and that was saved, a run on the
      record it leaves finishes exactly as a run on the record it found; each stop repeats at most one
      download, and so does each failed save.  A record that cannot be read, has failed or is complete
      stays as it is.  A cancelled job keeps its manifest only if this run had come past an entry that
      needed a download; it has failed, in a stage in which no run that finishes leaves it. */
  ghost predicate RunOk(w: World, before: Record, after: Record, ending: Ending, calls: nat, lost: nat) {
    && after == before.(job := after.job)
    && (!SavedCancel(ending) ==> Finish(w, after) == Finish(w, before))
    && (before.unreadable || before.job.status in {JobFailed, JobCompleted} ==> after == before)
    && (ending.Finished? ==> after.job == ending.job == Finish(w, before))
    && (ending.Reported? && lost == 0 ==> after.job == Finish(w, before))
    && (ending.Reported? && !before.unreadable ==> Finish(w, before).status == JobFailed)
    && (ending.Reported? && lost == 0 ==> ending.message == Message(after))
    && calls + TodoOf(w, after.job) <= TodoOf(w, before.job) + lost + (if ending.Killed? then 1 else 0)
    && (ending.Cancelled? ==>
          && before.job.manifest.Some? && ending.at < |before.job.manifest.value|
          && (ending.saved ==>
                && after.job.status == JobFailed && after.job.stage == StageDownloading
                && Finish(w, before).stage == StageCompleted
                && (after.job.manifest.Some? <==>
                      exists j :: 0 <= j < ending.at && NeedsDownload(w, before.job.manifest.value[j]))))
  }

  predicate Started(w: World, r: Record) {
    !r.unreadable && !r.disabled && w.parse(r.url).Some? && r.job == Start(r.job, w.parse(r.url).value)
  }

  lemma StartedOk(w: World, r: Record, r': Record, ending: Ending, calls: nat, lost: nat)
    requires !r.unreadable && !r.disabled && r.job.status !in {JobFailed, JobCompleted} && w.parse(r.url).Some?
    requires RunOk(w, r.(job := Start(r.job, w.parse(r.url).value)), r', ending, calls, lost)
    ensures RunOk(w, r, r', ending, calls, lost)
  {
    hide From;
  }

  /** The endings before the loop: nothing to do, or a failure that needs no download. */
  lemma EarlyOk(w: World, r: Record, message: string, saved: bool)
    ensures (r.unreadable || r.job.status == JobFailed) && message == Message(r) ==> RunOk(w, r, r, Reported(message), 0, 0)
    ensures !r.unreadable && r.job.status == JobCompleted ==> RunOk(w, r, r, Finished(r.job), 0, 0)
    ensures !r.unreadable && r.job.status !in {JobFailed, JobCompleted} && (r.disabled || w.parse(r.url).None?)
            && message == (if r.disabled then "Import owner is disabled" else "Stored playlist URL is invalid") ==>
              RunOk(w, r, if saved then r.(job := Finish(w, r)) else r, Reported(message), 0, if saved then 0 else 1)
    ensures RunOk(w, r, r, NotSaved, 0, 1)
  {
    hide From;
  }

  /** The first thing to happen to the run at an entry is that it is cancelled before entry `i`. */
  ghost predicate CancelAt(f: Fate, i: nat) {
    f.entry(i) == CancelBefore && forall j :: 0 <= j < i ==> f.entry(j) == NoMishap
  }

  /** A run that comes that far, on this manifest. */
  ghost predicate CancelReached(w: World, manifest: seq<Entry>, f: Fate, i: nat) {
    i < |manifest| && CancelAt(f, i) && forall j :: 0 <= j < i ==> !Breaks(w, manifest[j])
  }

  /** The run comes to the loop. */
  ghost predicate Enters(w: World, r: Record, f: Fate) {
    !r.unreadable && !r.disabled && r.job.status !in {JobFailed, JobCompleted} && w.parse(r.url).Some?
    && r.job.manifest.Some? && f.save(0)
  }

  /** One run.  It may be killed between any two steps and any save may fail; left alone, it finishes or
      reports a failure that it saved; cancelled, it ends as cancelled.  `calls` counts the entries
      downloaded and `lost` the saves that failed. */
  method Run(w: World, store: Checkpoints, fate: Fate) returns (ending: Ending, ghost calls: nat, ghost lost: nat)
    modifies store
    ensures RunOk(w, old(store.record), store.record, ending, calls, lost)
    ensures Untroubled(fate) ==> Smooth(ending, lost)
    ensures Enters(w, old(store.record), fate) ==>
              forall i: nat :: CancelReached(w, old(store.record).job.manifest.value, fate, i) ==> ending == Cancelled(i, fate.save(i + 1))
  {
    hide RunOk, From;
    calls, lost := 0, 0;
    var record := store.record;
    if record.unreadable {
      var message := if record.job.error.Some? then record.job.error.value
                     else "Stored import checkpoint is invalid; original manifest retained";
      EarlyOk(w, record, message, false);
      return Reported(message), 0, 0;
    }
    if record.job.status == JobFailed {
      var message := if record.job.error.Some? then record.job.error.value else "Spotify playlist import failed";
      EarlyOk(w, record, message, false);
      return Reported(message), 0, 0;
    }
    if record.job.status == JobCompleted {
      EarlyOk(w, record, "", false);
      return Finished(record.job), 0, 0;
    }
    if record.disabled {
      var saved := store.Save(Fail(record.job, "Import owner is disabled"), fate.save(0));
      EarlyOk(w, record, "Import owner is disabled", saved);
      return Reported("Import owner is disabled"), 0, if saved then 0 else 1;
    }
    var link := w.parse(record.url);
    if link.None? {
      var saved := store.Save(Fail(record.job, "Stored playlist URL is invalid"), fate.save(0));
      EarlyOk(w, record, "Stored playlist URL is invalid", saved);
      return Reported("Stored playlist URL is invalid"), 0, if saved then 0 else 1;
    }
    var job := Start(record.job, link.value);
    var saved := store.Save(job, fate.save(0));
    if !saved {
      EarlyOk(w, record, "", false);
      return NotSaved, 0, 1;
    }
    if job.manifest.None? {
      ending, lost := RunWhole(w, store, fate);
    } else {
      ending, calls, lost := RunEntries(w, store, job.manifest.value, fate);
    }
    StartedOk(w, record, store.record, ending, calls, lost);
  }

  method RunWhole(w: World, store: Checkpoints, fate: Fate) returns (ending: Ending, ghost lost: nat)
    requires Started(w, store.record) && store.record.job.manifest.None?
    modifies store
    ensures RunOk(w, old(store.record), store.record, ending, 0, lost)
    ensures Untroubled(fate) ==> Smooth(ending, lost)
  {
    lost := 0;
    var job := store.record.job;
    var answer := w.playlist(store.record.url);
    if fate.early {
      return Killed, 0;
    }
    match answer {
      case Tracks(n) =>
        job := job.(counts := Counts(Some(n), Some(n), Some(n), Some(n), Some(0)), stage := StageCompleted, status := JobCompleted);
        var saved := store.Save(job, fate.save(1));
        if !saved {
          return NotSaved, 1;
        }
        return Finished(job), 0;
      case NoTracks(m) =>
        var saved := store.Save(Fail(job, m), fate.save(1));
        return Reported(m), if saved then 0 else 1;
    }
  }

  /** What holds between two entries: going on finishes as starting again from the saved record does,
      and that is how a run on the record found would finish. */
  ghost predicate LoopInv(w: World, before: Record, stored: Record, job: Job, entries: seq<Entry>, idx: nat, calls: nat, lost: nat) {
    && Started(w, before) && before.job.manifest.Some? && |entries| == |before.job.manifest.value| && idx <= |entries|
    && stored == before.(job := stored.job)
    && SettledUpTo(entries, idx)
    && InLoop(w, before.url, job.(manifest := None), |entries|)
    && Finish(w, before) == From(w, job.(manifest := None), entries, idx)
    && Finish(w, stored) == Finish(w, before)
    && (forall j :: idx <= j < |entries| ==> entries[j] == before.job.manifest.value[j])
    && (job.manifest.Some? <==> exists j :: 0 <= j < idx && NeedsDownload(w, before.job.manifest.value[j]))
    && (job.manifest.Some? ==> Todo(w, job.manifest.value) == Todo(w, entries))
    && calls + Todo(w, entries) == Todo(w, before.job.manifest.value)
    && TodoOf(w, stored.job) <= Todo(w, entries) + lost
  }

  lemma FinishStage(w: World, r: Record)
    requires Started(w, r) && r.job.status == JobRunning && r.job.manifest.Some?
    ensures Finish(w, r).stage == StageCompleted
  {
    FromPointwise(w, Expect(Start(r.job, w.parse(r.url).value), |r.job.manifest.value|), r.job.manifest.value, 0);
    hide From, CountStatus;
  }

  lemma LoopStops(w: World, before: Record, stored: Record, job: Job, entries: seq<Entry>, idx: nat, calls: nat, lost: nat, saved: bool)
    requires LoopInv(w, before, stored, job, entries, idx, calls, lost)
    ensures RunOk(w, before, stored, Killed, calls, lost) && RunOk(w, before, stored, Killed, calls + 1, lost)
    ensures RunOk(w, before, stored, NotSaved, calls + 1, lost + 1) && RunOk(w, before, stored, NotSaved, calls, lost + 1)
    ensures idx < |entries| ==>
              var cancelled := job.(status := JobFailed, error := Some("Playlist import cancelled"));
              RunOk(w, before, if saved then stored.(job := cancelled) else stored, Cancelled(idx, saved), calls, lost)
  {
    FinishStage(w, before);
    hide Finish, From, Todo, NeedsDownload;
  }

  /** Passing an entry that needs no download, in memory only. */
  lemma LoopPasses(w: World, before: Record, stored: Record, job: Job, entries: seq<Entry>, idx: nat, calls: nat, lost: nat)
    requires LoopInv(w, before, stored, job, entries, idx, calls, lost)
    requires idx < |entries| && !NeedsDownload(w, entries[idx])
    ensures var e := entries[idx];
            LoopInv(w, before, stored, if e.status == Pending then Named(w, job, e) else job,
                    entries[idx := Settle(w, e)], idx + 1, calls, lost)
  {
    TodoUpdate(w, entries, idx, Settle(w, entries[idx]));
    hide Finish, Todo;
  }

  /** Passing an entry that was downloaded, with the checkpoint saved or lost. */
  lemma LoopDownloads(w: World, before: Record, stored: Record, job: Job, entries: seq<Entry>, idx: nat, calls: nat, lost: nat, saved: bool)
    requires LoopInv(w, before, stored, job, entries, idx, calls, lost)
    requires idx < |entries| && NeedsDownload(w, entries[idx]) && !Breaks(w, entries[idx])
    ensures var entries' := entries[idx := Settle(w, entries[idx])];
            var job' := Counted(Named(w, job, entries[idx]), entries').(manifest := Some(entries'));
            var stored' := if saved then stored.(job := job') else stored;
            LoopInv(w, before, stored', job', entries', idx + 1, calls + 1, if saved then lost else lost + 1)
  {
    var entries' := entries[idx := Settle(w, entries[idx])];
    var job' := Counted(Named(w, job, entries[idx]), entries').(manifest := Some(entries'));
    TodoUpdate(w, entries, idx, Settle(w, entries[idx]));
    assert From(w, job.(manifest := None), entries, idx) == From(w, job'.(manifest := None), entries', idx + 1);
    Resume(w, before.(job := job'), job'.(manifest := None), entries', idx + 1);
    hide Finish, Todo, From;
  }

  lemma LoopBreaks(w: World, before: Record, stored: Record, job: Job, entries: seq<Entry>, idx: nat, calls: nat, lost: nat)
    requires LoopInv(w, before, stored, job, entries, idx, calls, lost)
    requires idx < |entries| && Breaks(w, entries[idx])
    ensures var message := w.download(entries[idx].position, entries[idx].source).message;
            var job' := Broken(Named(w, job, entries[idx]), entries[idx := Settle(w, entries[idx])], message);
            RunOk(w, before, stored.(job := job'), Reported(message), calls + 1, lost)
  {
    TodoUpdate(w, entries, idx, Settle(w, entries[idx]));
    FinishIdempotent(w, before);
    hide Finish, Todo;
  }

  lemma LoopEnds(w: World, before: Record, stored: Record, job: Job, entries: seq<Entry>, calls: nat, lost: nat, saved: bool)
    requires LoopInv(w, before, stored, job, entries, |entries|, calls, lost)
    ensures var job' := Closed(Counted(job, entries), entries);
            RunOk(w, before, if saved then stored.(job := job') else stored,
                  if job'.status == JobFailed then Reported(FirstError(entries)) else if saved then Finished(job') else NotSaved,
                  calls, if saved then lost else lost + 1)
  {
    FinishIdempotent(w, before);
    hide Finish, Todo, CountStatus, FirstError;
  }

  lemma LoopStarts(w: World, r: Record)
    requires Started(w, r) && r.job.manifest.Some?
    ensures LoopInv(w, r, r, Expect(r.job, |r.job.manifest.value|), r.job.manifest.value, 0, 0, 0)
  {
    hide From;
  }

  /** The download of one entry, and the checkpoint after it. */
  method DownloadEntry(w: World, store: Checkpoints, ghost before: Record, unnamed: Job, found: seq<Entry>, idx: nat,
                       fate: Fate, ghost calls0: nat, ghost lost0: nat)
      returns (stop: Option<Ending>, job: Job, entries: seq<Entry>, ghost calls: nat, ghost lost: nat)
    requires idx < |found| && NeedsDownload(w, found[idx])
    requires LoopInv(w, before, store.record, unnamed, found, idx, calls0, lost0)
    modifies store
    ensures |entries| == |found|
    ensures if stop.Some? then RunOk(w, before, store.record, stop.value, calls, lost)
            else LoopInv(w, before, store.record, job, entries, idx + 1, calls, lost)
    ensures Untroubled(fate) ==> lost == lost0 && (stop.None? || stop.value.Reported?)
    ensures stop.Some? ==> fate.entry(idx) == StopAfterDownload || Breaks(w, found[idx])
    ensures forall j :: idx < j < |found| ==> entries[j] == found[j]
  {
    hide LoopInv, RunOk, CountStatus;
    var e := found[idx];
    ghost var stored := store.record;
    job, entries, calls, lost := Named(w, unnamed, e), found, calls0 + 1, lost0;
    var answer := w.download(e.position, e.source);
    LoopStops(w, before, stored, unnamed, entries, idx, calls0, lost, false);
    if fate.entry(idx) == StopAfterDownload {
      stop := Some(Killed);
      return;
    }
    match answer {
      case Files(first) =>
        entries := entries[idx := e.(status := Completed, file := first, provider := Some(e.position))];
      case Refused(m) =>
        entries := entries[idx := e.(status := FailedDownload, error := Some(m))];
      case ProcessBroken(m) =>
        entries := entries[idx := e.(status := FailedDownload, error := Some(m))];
        job := Broken(job, entries, m);
        LoopBreaks(w, before, stored, unnamed, found, idx, calls0, lost);
        var saved := store.Save(job, fate.save(idx + 1));
        stop, lost := Some(if saved then Reported(m) else NotSaved), if saved then lost else lost + 1;
        return;
    }
    job := Counted(job, entries).(manifest := Some(entries));
    var saved := store.Save(job, fate.save(idx + 1));
    LoopDownloads(w, before, stored, unnamed, found, idx, calls0, lost, saved);
    stop, lost := None, if saved then lost else lost + 1;
  }

  lemma CancelCases(w: World, manifest: seq<Entry>, f: Fate, idx: nat)
    requires idx < |manifest|
    ensures forall i: nat :: CancelReached(w, manifest, f, i) && idx <= i ==>
              if f.entry(idx) == CancelBefore then i == idx else idx < i && f.entry(idx) == NoMishap && !Breaks(w, manifest[idx])
  {
    hide Breaks;
  }

  lemma CancelWithin(w: World, manifest: seq<Entry>, f: Fate)
    ensures forall i: nat :: CancelReached(w, manifest, f, i) ==> i < |manifest|
  {
  }

  /** The loop over the manifest, entered with the record saved as running. */
  method RunEntries(w: World, store: Checkpoints, manifest: seq<Entry>, fate: Fate) returns (ending: Ending, ghost calls: nat, ghost lost: nat)
    requires Started(w, store.record) && store.record.job.manifest == Some(manifest)
    modifies store
    ensures RunOk(w, old(store.record), store.record, ending, calls, lost)
    ensures Untroubled(fate) ==> Smooth(ending, lost)
    ensures forall i: nat :: CancelReached(w, manifest, fate, i) ==> ending == Cancelled(i, fate.save(i + 1))
  {
    hide LoopInv, RunOk, CountStatus, Started, CancelReached, Breaks, Todo;
    calls, lost := 0, 0;
    ghost var before := store.record;
    var entries := manifest;
    var total := |entries|;
    var job := Expect(store.record.job, total);
    var idx := 0;
    LoopStarts(w, before);
    CancelWithin(w, manifest, fate);
    while idx < total
      invariant idx <= total == |entries|
      invariant LoopInv(w, before, store.record, job, entries, idx, calls, lost)
      invariant Untroubled(fate) ==> lost == 0
      invariant forall j :: idx <= j < total ==> entries[j] == manifest[j]
      invariant forall i: nat :: CancelReached(w, manifest, fate, i) ==> idx <= i < total
    {
      var e := entries[idx];
      ghost var stored := store.record;
      CancelCases(w, manifest, fate, idx);
      if fate.entry(idx) == StopBefore {
        LoopStops(w, before, stored, job, entries, idx, calls, lost, false);
        return Killed, calls, lost;
      }
      if fate.entry(idx) == CancelBefore {
        var saved := store.Save(job.(status := JobFailed, error := Some("Playlist import cancelled")), fate.save(idx + 1));
        LoopStops(w, before, stored, job, entries, idx, calls, lost, saved);
        return Cancelled(idx, saved), calls, lost;
      }
      if e.status in {Completed, Ready, Downloaded} {
        LoopPasses(w, before, stored, job, entries, idx, calls, lost);
        entries := entries[idx := e.(status := Completed)];
        idx := idx + 1;
        continue;
      }
      if e.status != Pending {
        LoopPasses(w, before, stored, job, entries, idx, calls, lost);
        assert entries[idx := Settle(w, e)] == entries;
        idx := idx + 1;
        continue;
      }
      if NoMetadata(w, e.source) {
        LoopPasses(w, before, stored, job, entries, idx, calls, lost);
        job := Named(w, job, e);
        entries := entries[idx := e.(status := FailedMetadataMissing,
                                     error := Some("Could not resolve canonical Spotify track metadata"))];
        idx := idx + 1;
        continue;
      }
      var stop: Option<Ending>;
      stop, job, entries, calls, lost := DownloadEntry(w, store, before, job, entries, idx, fate, calls, lost);
      if stop.Some? {
        return stop.value, calls, lost;
      }
      idx := idx + 1;
    }
    ending, lost := Close(w, store, before, job, entries, fate.save(total + 1), calls, lost);
  }

  /** The terminal status, and the last save. */
  method Close(w: World, store: Checkpoints, ghost before: Record, open: Job, entries: seq<Entry>, works: bool,
               ghost calls: nat, ghost lost0: nat)
      returns (ending: Ending, ghost lost: nat)
    requires LoopInv(w, before, store.record, open, entries, |entries|, calls, lost0)
    modifies store
    ensures RunOk(w, before, store.record, ending, calls, lost)
    ensures works ==> lost == lost0 && (ending.Finished? || ending.Reported?)
  {
    hide LoopInv, RunOk;
    ghost var stored := store.record;
    var job := Counted(open, entries).(stage := StageCompleted, manifest := Some(entries));
    if CountStatus(entries, {Completed}) == 0 && CountStatus(entries, FAILURES) > 0 {
      var message := FirstError(entries);
      var saved := store.Save(job.(status := JobFailed, error := Some(message)), works);
      LoopEnds(w, before, stored, open, entries, calls, lost0, saved);
      return Reported(message), if saved then lost0 else lost0 + 1;
    }
    job := job.(status := if CountStatus(entries, FAILURES) > 0 then JobPartial else JobCompleted);
    var saved := store.Save(job, works);
    LoopEnds(w, before, stored, open, entries, calls, lost0, saved);
    if !saved {
      return NotSaved, lost0 + 1;
    }
    return Finished(job), lost0;
  }

  // ---------------------------------------------------------------- any number of runs

  datatype Attempt = Attempt(after: Record, ending: Ending, calls: nat, lost: nat)

  /** A sequence of runs, each started on the record that the one before left. */
  ghost predicate Attempts(w: World, before: Record, attempts: seq<Attempt>)
    decreases |attempts|
  {
    attempts == [] || (var a := attempts[0];
                       RunOk(w, before, a.after, a.ending, a.calls, a.lost) && Attempts(w, a.after, attempts[1..]))
  }

  function Left(before: Record, attempts: seq<Attempt>): Record {
    if attempts == [] then before else attempts[|attempts| - 1].after
  }

  function Calls(attempts: seq<Attempt>): nat {
    if attempts == [] then 0 else attempts[0].calls + Calls(attempts[1..])
  }

  /** Kills and failed saves. */
  function Mishaps(attempts: seq<Attempt>): nat {
    if attempts == [] then 0
    else attempts[0].lost + (if attempts[0].ending.Killed? then 1 else 0) + Mishaps(attempts[1..])
  }

  /** However often the import is killed or a save fails, and wherever, the job in the end is the one
      that a single uninterrupted run would have left, once a run says it finished, and a run on what is
      left would leave it: exactly as long as nobody cancels it and that is saved.  All the runs together
      download at most one entry more for each mishap. */
  lemma {:induction false} Convergence(w: World, before: Record, attempts: seq<Attempt>)
    requires Attempts(w, before, attempts)
    ensures Finish(w, Left(before, attempts)) == Finish(w, before) <==>
            forall i :: 0 <= i < |attempts| ==> !SavedCancel(attempts[i].ending)
    ensures attempts != [] && attempts[|attempts| - 1].ending.Finished?
            && (forall i :: 0 <= i < |attempts| ==> !SavedCancel(attempts[i].ending)) ==>
              Left(before, attempts).job == Finish(w, before)
    ensures Calls(attempts) + TodoOf(w, Left(before, attempts).job) <= TodoOf(w, before.job) + Mishaps(attempts)
    decreases |attempts|
  {
    hide Finish, TodoOf;
    if attempts != [] {
      var a, rest := attempts[0], attempts[1..];
      assert forall i :: 0 <= i < |rest| ==> rest[i] == attempts[i + 1];
      Convergence(w, a.after, rest);
      assert Left(before, attempts) == Left(a.after, rest);
      assert rest != [] ==> rest[|rest| - 1] == attempts[|attempts| - 1];
      if SavedCancel(a.ending) {
        FailedStays(w, a.after, rest);
        FailedFinish(w, a.after);
      } else {
        assert (forall i :: 0 <= i < |attempts| ==> !SavedCancel(attempts[i].ending)) <==>
               (forall i :: 0 <= i < |rest| ==> !SavedCancel(rest[i].ending)) by {
          if forall i :: 0 <= i < |rest| ==> !SavedCancel(rest[i].ending) {
            forall i | 0 <= i < |attempts| ensures !SavedCancel(attempts[i].ending) {
              assert i > 0 ==> attempts[i] == rest[i - 1];
            }
          }
        }
      }
    }
  }

  /** No run changes a job that has failed. */
  lemma {:induction false} FailedStays(w: World, before: Record, attempts: seq<Attempt>)
    requires Attempts(w, before, attempts) && before.job.status == JobFailed
    ensures Left(before, attempts) == before
    decreases |attempts|
  {
    if attempts != [] {
      FailedStays(w, attempts[0].after, attempts[1..]);
      assert Left(before, attempts) == Left(attempts[0].after, attempts[1..]);
    }
  }

  lemma FailedFinish(w: World, r: Record)
    requires r.job.status == JobFailed
    ensures Finish(w, r) == r.job
  {
  }

  /** A job cancelled before its first download has lost its manifest, and no later run brings it back. */
  method CancelLosesManifest() returns (record: Record)
    ensures record.job.manifest == None && record.job.status == JobFailed
    ensures forall w: World :: Finish(w, record) == record.job
  {
    var w := World(text => text, url => Some(Link("list", "")), (position, source) => Files(None), url => Tracks(0));
    var manifest := [Entry(0, Source("title", "artist", ""), Pending, None, None, None)];
    var job := Job(JobQueued, StageQueued, None, None, Counts(None, None, None, None, None), None, None, None, Some(manifest));
    var store := new Checkpoints(Record(job, "url", false, false));
    var fate := Fate(i => CancelBefore, i => true, false);
    hide Finish, From;
    assert CancelReached(w, manifest, fate, 0);
    var ending, calls, lost := Run(w, store, fate);
    record := store.record;
    forall w: World { FailedFinish(w, record); }
  }
}
