/** How a row comes to say "mirrored", how long a reseed lasts, and the interleavings that defeat the
    machine: for each step that PreserveRuns and PreserveOwnership exclude, what goes wrong after it. */
module PreserveOutcomes {
  import opened Basics
  import opened Inscriptions
  import opened IaFiles
  import opened PreserveSteps
  import opened PreserveRuns
  import PreserveOwnership
  import Labels
  import Storage = StorageClients

  predicate TurnsMirrored(rows: Rows, rows': Rows, id: string) {
    id in rows' && rows'[id].state == Mirrored && !(id in rows && rows[id].state == Mirrored)
  }

  // The run that ends with this step, whose record and CIDs the row takes over.
  predicate ByRun(s: Plugin, r: Plugin, id: string) {
    && s.ia.item == id && r.ia.item == "" && |r.completed| == |s.completed| + 1
    && r.completed[|s.completed|].item == id
    && id in r.rows && r.rows[id].storedCids == r.completed[|s.completed|].stored
  }

  // The reseed that ends with this step, on the record with whether the completed upload carried its file.
  predicate ByReseed(s: Plugin, e: Event, r: Plugin, id: string) {
    && e.UploadDone? && e.ok && s.uploading && s.ia.item == "" && s.reseed.item == id
    && r.reseed.item == "" && r.settled == s.settled + [Settled(id, s.cargo == id)]
  }

  predicate ByPin(s: Plugin, e: Event, id: string) {
    e.PinDone? && e.ok && e.cid in s.pins.pinning && OwnerOf(s.pins, e.cid) == id
  }

  predicate ByLoading(e: Event, id: string) {
    e.Restart? && id in e.loaded && e.loaded[id].state == Mirrored
  }

  lemma FinishMirrors(s: Plugin, id: string)
    requires TurnsMirrored(s.rows, IaNextFile(s).rows, id)
    ensures ByRun(s, IaNextFile(s), id)
  {
  }

  lemma UploadMirrors(s: Plugin, ok: bool, cid: string, id: string)
    requires TurnsMirrored(s.rows, UploadFinished(s, ok, cid).rows, id)
    ensures var r := UploadFinished(s, ok, cid);
            && ok
            && (ByRun(s, r, id) ||
                (s.ia.item == "" && s.reseed.item == id && r.reseed.item == "" &&
                 r.settled == s.settled + [Settled(id, s.cargo == id)]))
  {
    hide IaNextFile, ByRun;
    if s.ia.item != "" && ok {
      FinishMirrors(s.(ia := FileStored(s.ia, cid)), id);
      SameRunEnds(s, FileStored(s.ia, cid), IaNextFile(s.(ia := FileStored(s.ia, cid))), id);
    }
  }

  lemma SameRunEnds(s: Plugin, ia: IaRun, r: Plugin, id: string)
    requires ia.item == s.ia.item
    ensures ByRun(s.(ia := ia), r, id) == ByRun(s, r, id)
  {
  }

  lemma ManifestMirrors(s: Plugin, ok: bool, body: seq<Token>, id: string)
    requires TurnsMirrored(s.rows, ManifestReply(s, ok, body).rows, id)
    ensures ByRun(s, ManifestReply(s, ok, body), id)
  {
    hide IaNextFile, ByRun, Parsed, SumSizes;
    var ia := s.ia.(files := Parsed(body), done := 0, total := SumSizes(Parsed(body)));
    if s.ia.item != "" && ok && Parsed(body) != [] {
      FinishMirrors(s.(ia := ia), id);
      SameRunEnds(s, ia, IaNextFile(s.(ia := ia)), id);
    }
  }

  lemma RefusedMirrorsNothing(s: Plugin, id: string)
    ensures !TurnsMirrored(s.rows, UploadFinished(s, false, "").rows, id)
  {
    hide Enqueue;
  }

  lemma FileMirrorsNothing(s: Plugin, entry: IaFileEntry, ok: bool, content: Option<Digests>, accepted: bool, id: string)
    ensures !TurnsMirrored(s.rows, FileReply(s, entry, ok, content, accepted).rows, id)
  {
    hide UploadFinished, VerifyIaFile;
    RefusedMirrorsNothing(
      s.(ia := s.ia.(unverified := s.ia.unverified + (if VerifyIaFile(content, entry) == Unverified then 1 else 0),
                     acts := s.ia.acts + [Fetched(entry, content), Sent(entry)])), id);
  }

  lemma CandidateMirrorsNothing(s: Plugin, item: string, ok: bool, accepted: bool, id: string)
    ensures !TurnsMirrored(s.rows, CandidateReply(s, item, ok, accepted).rows, id)
  {
    hide UploadFinished;
    RefusedMirrorsNothing(s, id);
  }

  lemma ReplyMirrors(s: Plugin, token: nat, ok: bool, body: seq<Token>, content: Option<Digests>, accepted: bool, id: string)
    requires TurnsMirrored(s.rows, DownloadReply(s, token, ok, body, content, accepted).rows, id)
    ensures ByRun(s, DownloadReply(s, token, ok, body, content, accepted), id)
  {
    hide ManifestReply, FileReply, CandidateReply;
    if token in s.downloads {
      var s1 := s.(downloads := s.downloads - {token});
      match s.downloads[token]
      case ManifestTask(_) => ManifestMirrors(s1, ok, body, id);
      case FileTask(_, entry, _) => FileMirrorsNothing(s1, entry, ok, content, accepted, id);
      case CandidateTask(item, _) => CandidateMirrorsNothing(s1, item, ok, accepted, id);
    }
  }

  lemma MirrorMirrorsNothing(s: Plugin, x: string, id: string)
    ensures !TurnsMirrored(s.rows, MirrorItem(s, x).rows, id)
  {
  }

  lemma DrainMirrorsNothing(s: Plugin, id: string)
    ensures !TurnsMirrored(s.rows, DrainAutoQueue(s).rows, id)
  {
    hide MirrorItem;
    if Idle(s) && Skipped(s.rows, s.queue) < |s.queue| {
      var n := Skipped(s.rows, s.queue);
      MirrorMirrorsNothing(s.(queue := s.queue[n + 1..]), s.queue[n], id);
    }
  }

  lemma DrainEventMirrorsNothing(s: Plugin, e: Event, id: string)
    requires e.AutoOn? || e.Discover? || e.HealthTick?
    ensures !TurnsMirrored(s.rows, Step(s, e).rows, id)
  {
    hide DrainAutoQueue, EnqueueAll, Choose, WithinCap, Wanted;
    match e
    case HealthTick => DrainMirrorsNothing(s, id);
    case AutoOn(listing) =>
      DrainMirrorsNothing(s.(queue := EnqueueAll(s.queue, Choose(listing, x => Wanted(s, x)))), id);
    case Discover(autoOn, ids) =>
      var s1 := WithRows(s, ids);
      DrainMirrorsNothing(
        s1.(queue := if autoOn then EnqueueAll(s1.queue, Choose(ids, x => x in s1.rows && WithinCap(s1, x)))
                     else s1.queue), id);
  }

  lemma PinMirrors(s: Plugin, cid: string, ok: bool, id: string)
    requires TurnsMirrored(s.rows, PinFinished(s, cid, ok).rows, id)
    ensures ByPin(s, PinDone(cid, ok), id)
  {
    hide ReseedRefused, CandidatesFor, OwnerOf;
  }

  lemma UnpinMirrorsNothing(s: Plugin, cid: string, ok: bool, id: string)
    ensures !TurnsMirrored(s.rows, UnpinFinished(s, cid, ok).rows, id)
  {
    hide FilesLeft, TakeUnpin, OwnerOf;
  }

  // A row turns "mirrored" in four ways only: its run completed, and then it holds the CIDs of that run's
  // record; its pin succeeded; an upload completed while its reseed was the one to settle; or a restart loaded
  // it so.
  lemma MirroredOnlyIf(s: Plugin, e: Event, id: string)
    requires TurnsMirrored(s.rows, Step(s, e).rows, id)
    ensures ByRun(s, Step(s, e), id) || ByPin(s, e, id) || ByReseed(s, e, Step(s, e), id) || ByLoading(e, id)
  {
    hide ByRun, DownloadReply, UploadFinished, UnmirrorItem, UnpinFinished, PinFinished, MirrorItem, DrainAutoQueue,
      AutoPreserveOn, Discovered, TurnsMirrored, Percent, FilePercent;
    match e
    case Mirror(x) => MirrorMirrorsNothing(s, x, id);
    case Unmirror(x) => UnmirrorMirrorsNothing(s, x, id);
    case Reply(token, ok, body, content, accepted) => ReplyMirrors(s, token, ok, body, content, accepted, id);
    case UploadDone(ok, cid) =>
      if s.uploading {
        UploadMirrors(s.(uploading := false), ok, cid, id);
        SameRunUploads(s, UploadFinished(s.(uploading := false), ok, cid), id);
      } else {
        NothingTurns(s, id);
      }
    case PinDone(cid, ok) => PinMirrors(s, cid, ok, id);
    case UnpinDone(cid, ok) => UnpinMirrorsNothing(s, cid, ok, id);
    case AutoOn(_) => DrainEventMirrorsNothing(s, e, id);
    case Discover(_, _) => DrainEventMirrorsNothing(s, e, id);
    case HealthTick => DrainEventMirrorsNothing(s, e, id);
    case Restart(loaded) => LoadedMirrored(s, loaded, id);
    case Progress(token, recv, size) => ProgressMirrorsNothing(s, token, recv, size, id);
    case _ => ListMirrorsNothing(s, e, id);
  }

  // In step and by an allowed event, the run was exact and the completed upload carried the reseed's own file.
  lemma MirroredHonestly(s: Plugin, e: Event, id: string)
    requires Sound(s) && Allowed(s, e) && TurnsMirrored(s.rows, Step(s, e).rows, id)
    ensures var r := Step(s, e);
            || (ByRun(s, r, id) && Exact(r.completed[|s.completed|]))
            || ByPin(s, e, id)
            || (ByReseed(s, e, r, id) && s.cargo == id)
            || ByLoading(e, id)
  {
    hide Allowed, InStep, Exact, Step, TurnsMirrored;
    MirroredOnlyIf(s, e, id);
    StepSound(s, e);
    var r := Step(s, e);
    if ByRun(s, r, id) {
      assert r.completed[|s.completed|] in r.completed;
    } else if ByReseed(s, e, r, id) {
      assert r.settled[|s.settled|] in r.settled;
    }
  }

  lemma UnmirrorMirrorsNothing(s: Plugin, x: string, id: string)
    ensures !TurnsMirrored(s.rows, UnmirrorItem(s, x).rows, id)
  {
  }

  lemma SameRunUploads(s: Plugin, r: Plugin, id: string)
    ensures ByRun(s.(uploading := false), r, id) == ByRun(s, r, id)
  {
  }

  lemma NothingTurns(s: Plugin, id: string)
    ensures !TurnsMirrored(s.rows, s.rows, id)
  {
  }

  lemma LoadedMirrored(s: Plugin, loaded: Rows, id: string)
    ensures TurnsMirrored(s.rows, RestartWith(s, loaded).rows, id) ==> ByLoading(Restart(loaded), id)
  {
  }

  lemma ProgressMirrorsNothing(s: Plugin, token: nat, recv: int, size: int, id: string)
    ensures !TurnsMirrored(s.rows, DownloadProgress(s, token, recv, size).rows, id)
  {
    hide Percent, FilePercent;
  }

  lemma ListMirrorsNothing(s: Plugin, e: Event, id: string)
    requires e.Abort? || e.RemoveRow? || e.RemoveAll? || e.Unfollow? || e.StorageState?
    ensures !TurnsMirrored(s.rows, Step(s, e).rows, id)
  {
    hide WithoutId;
  }

  // ----- when a reseed starts and when it ends -----

  // A reseed is refused exactly while another runs or when the item's stored reference names no file (or
  // one that ends in a bar, which the candidate notation cannot tell from none).
  lemma RefusedWithoutFile(s: Plugin, id: string)
    ensures var file := Labels.DeriveIaRef(SourceOf(s, id).cid, SourceOf(s, id).title).file;
            ReseedRefused(s, id) <==> s.reseed.item != "" || file == "" || file[|file| - 1] == '|'
  {
    hide Labels.Candidates, Labels.DeriveIaRef;
    var source := SourceOf(s, id);
    Labels.HeadAgreesWithRef(source.cid, source.title);
    var ref := Labels.DeriveIaRef(source.cid, source.title);
    EndsInBar(ref);
  }

  lemma EndsInBar(ref: Labels.IaRef)
    ensures NoFile(Labels.Encode(ref)) <==> ref.file == "" || ref.file[|ref.file| - 1] == '|'
  {
  }

  // An item whose label the keeper wrote for (archive, file) is re-seeded from exactly that file first, when
  // the file's stem has no hyphen to confuse the split.
  lemma ReseedsFromItsLabel(s: Plugin, id: string, archive: string, file: string, note: string)
    requires Labels.PlainName(archive) && '.' !in archive && '|' !in archive
    requires Labels.PlainName(file) && '.' in file && '|' !in file && '\n' !in note
    requires 0 <= IndexOf(file, '.') && Labels.CountHyphens(file[..IndexOf(file, '.')]) == 0
    requires SourceOf(s, id).title == Labels.KeeperLabel(archive, file, note) && !StartsWith(SourceOf(s, id).cid, "ia:")
    requires s.reseed.item == ""
    ensures !ReseedRefused(s, id)
    ensures Labels.Decode(CandidatesFor(s, id)[0]) == Labels.IaRef(archive, file)
    ensures forall cid | cid in s.pins.pinning && OwnerOf(s.pins, cid) == id ::
              Step(s, PinDone(cid, false)).downloads ==
              s.downloads[s.nextDownload := CandidateTask(id, Labels.IaRef(archive, file))]
  {
    hide Labels.Candidates, Labels.KeeperLabel, Labels.PlainName, Labels.CountHyphens, Labels.Decode;
    Labels.LabelRoundTrip(archive, file, note, SourceOf(s, id).cid);
    EndsInBar(Labels.IaRef(archive, file));
    Labels.DecodeEncode(Labels.IaRef(archive, file));
    forall cid | cid in s.pins.pinning && OwnerOf(s.pins, cid) == id
      ensures Step(s, PinDone(cid, false)).downloads ==
              s.downloads[s.nextDownload := CandidateTask(id, Labels.IaRef(archive, file))]
    {
      ReseedStarted(s, cid);
    }
  }

  predicate FewTries(s: Plugin) {
    s.reseed.tried + |s.reseed.candidates| <= Labels.MAX_CANDIDATES
  }

  lemma PinTries(s: Plugin, cid: string, ok: bool)
    requires FewTries(s)
    ensures FewTries(PinFinished(s, cid, ok))
  {
    hide NoFile, OwnerOf, Labels.Candidates;
    if cid in s.pins.pinning {
      var s1 := s.(pins := s.pins.(cidToItem := s.pins.cidToItem - {cid}, pinning := s.pins.pinning - {cid}));
      var source := SourceOf(s1, OwnerOf(s.pins, cid));
      Labels.HeadAgreesWithRef(source.cid, source.title);
    }
  }

  lemma UploadTries(s: Plugin, ok: bool, cid: string)
    ensures var r := UploadFinished(s, ok, cid).reseed;
            r.tried == s.reseed.tried && r.candidates == s.reseed.candidates
  {
  }

  predicate SameBudget(s: Plugin, r: Plugin) {
    r.reseed.tried + |r.reseed.candidates| == s.reseed.tried + |s.reseed.candidates|
  }

  lemma FileTries(s: Plugin, entry: IaFileEntry, ok: bool, content: Option<Digests>, accepted: bool)
    ensures SameBudget(s, FileReply(s, entry, ok, content, accepted))
  {
    hide UploadFinished, VerifyIaFile;
    UploadTries(
      s.(ia := s.ia.(unverified := s.ia.unverified + (if VerifyIaFile(content, entry) == Unverified then 1 else 0),
                     acts := s.ia.acts + [Fetched(entry, content), Sent(entry)])),
      false, "");
  }

  lemma CandidateTries(s: Plugin, item: string, ok: bool, accepted: bool)
    ensures SameBudget(s, CandidateReply(s, item, ok, accepted))
  {
    hide UploadFinished;
    UploadTries(s, false, "");
  }

  lemma ReplyTries(s: Plugin, token: nat, ok: bool, body: seq<Token>, content: Option<Digests>, accepted: bool)
    ensures SameBudget(s, DownloadReply(s, token, ok, body, content, accepted))
  {
    hide FileReply, CandidateReply, ManifestReply;
    if token in s.downloads {
      var s1 := s.(downloads := s.downloads - {token});
      match s.downloads[token]
      case ManifestTask(_) => ManifestTries(s1, ok, body);
      case FileTask(_, entry, _) => FileTries(s1, entry, ok, content, accepted);
      case CandidateTask(item, _) => CandidateTries(s1, item, ok, accepted);
    }
  }

  lemma ManifestTries(s: Plugin, ok: bool, body: seq<Token>)
    ensures ManifestReply(s, ok, body).reseed == s.reseed
  {
    hide Parsed, SumSizes;
  }

  lemma OtherTries(s: Plugin, e: Event)
    requires FewTries(s) && !e.PinDone? && !e.Reply? && !e.UploadDone?
    ensures FewTries(Step(s, e))
  {
    hide DrainAutoQueue, EnqueueAll, Choose, WithinCap, Wanted, WithoutId, Percent, FilePercent, MirrorItem, UnmirrorItem,
      UnpinFinished;
    match e
    case Mirror(id) => MirrorTries(s, id);
    case Unmirror(id) => UnmirrorTries(s, id);
    case UnpinDone(cid, ok) => UnpinTries(s, cid, ok);
    case AutoOn(listing) => DrainTries(s.(queue := EnqueueAll(s.queue, Choose(listing, x => Wanted(s, x)))));
    case Discover(autoOn, ids) =>
      var s1 := WithRows(s, ids);
      DrainTries(s1.(queue := if autoOn then EnqueueAll(s1.queue, Choose(ids, x => x in s1.rows && WithinCap(s1, x)))
                              else s1.queue));
    case HealthTick => DrainTries(s);
    case _ =>
  }

  lemma MirrorTries(s: Plugin, id: string)
    ensures MirrorItem(s, id).reseed == s.reseed
  {
  }

  lemma UnmirrorTries(s: Plugin, id: string)
    ensures UnmirrorItem(s, id).reseed == s.reseed
  {
  }

  lemma UnpinTries(s: Plugin, cid: string, ok: bool)
    ensures UnpinFinished(s, cid, ok).reseed == s.reseed
  {
  }

  lemma DrainTries(s: Plugin)
    ensures DrainAutoQueue(s).reseed == s.reseed
  {
    hide MirrorItem;
    if Idle(s) && Skipped(s.rows, s.queue) < |s.queue| {
      var n := Skipped(s.rows, s.queue);
      MirrorTries(s.(queue := s.queue[n + 1..]), s.queue[n]);
    }
  }

  // No reseed downloads more than four candidates, in any run.
  lemma {:induction false} ReseedTriesFew(s: Plugin, events: seq<Event>)
    requires FewTries(s)
    ensures FewTries(RunFrom(s, events)) && RunFrom(s, events).reseed.tried <= 4
  {
    hide FewTries, DownloadReply, UploadFinished, PinFinished;
    if events != [] {
      var before, e := events[..|events| - 1], events[|events| - 1];
      ReseedTriesFew(s, before);
      var s1 := RunFrom(s, before);
      if e.PinDone? {
        PinTries(s1, e.cid, e.ok);
      } else if e.Reply? {
        ReplyTries(s1, e.token, e.ok, e.body, e.content, e.accepted);
        SameTries(s1, DownloadReply(s1, e.token, e.ok, e.body, e.content, e.accepted));
      } else if e.UploadDone? {
        UploadTries(s1.(uploading := false), e.ok, e.cid);
        SameTries(s1, UploadFinished(s1.(uploading := false), e.ok, e.cid));
      } else {
        hide Step;
        OtherTries(s1, e);
      }
    }
    FewTriesFact(RunFrom(s, events));
  }

  lemma SameTries(s: Plugin, r: Plugin)
    requires FewTries(s) && SameBudget(s, r)
    ensures FewTries(r)
  {
  }

  lemma FewTriesFact(s: Plugin)
    requires FewTries(s)
    ensures s.reseed.tried <= 4
  {
  }

  // ----- the interleavings that are not allowed -----

  predicate FromArchiveItem(s: Plugin, id: string) {
    id in s.rows && id in s.catalog && FromArchive(s.catalog[id].cid) && ArchiveId(s.catalog[id]) != ""
  }

  // Cancel an item while its upload is outstanding and start another: the old upload's completion
  // "completes" the new item, with the old CID and without a single download.
  lemma AbandonedUploadCompletesAnother(s: Plugin, a: string, b: string, cid: string)
    requires Sound(s) && s.ia.item == a && a != "" && s.uploading && s.storage == Storage.Ready
    requires b != a && FromArchiveItem(s, b) && cid != ""
    ensures var r := Step(Step(Step(s, Abort(a)), Mirror(b)), UploadDone(true, cid));
            && r.rows[b].state == Mirrored && r.rows[b].storedCids == [cid]
            && |r.completed| == |s.completed| + 1
            && r.completed[|s.completed|].files == [] && r.completed[|s.completed|].acts == [Kept(cid)]
  {
    hide AllExact, BetweenFiles, FileSent, WithoutId, ArchiveId, FromArchive;
    var s1 := AbortPreserve(s, a);
    assert s1.ia.item == "" && s1.reseed.item == "" && s1.uploading;
    SameItem(s, s1, b);
    var s2 := MirrorItem(s1, b);
    assert s2 == StartIa(s1, b, ArchiveId(SourceOf(s1, b)));
    StoredForNothing(s2, b, cid);
  }

  lemma SameItem(s: Plugin, r: Plugin, id: string)
    requires FromArchiveItem(s, id) && r.catalog == s.catalog && id in r.rows
    ensures FromArchive(SourceOf(r, id).cid) && ArchiveId(SourceOf(r, id)) != ""
  {
    hide ArchiveId, FromArchive;
  }

  lemma StoredForNothing(s: Plugin, id: string, cid: string)
    requires s.ia == NO_RUN.(item := id, iaId := s.ia.iaId, tracked := s.ia.tracked) && id != "" && id in s.rows
    requires s.uploading && cid != ""
    ensures var r := Step(s, UploadDone(true, cid));
            && id in r.rows && r.rows[id].state == Mirrored && r.rows[id].storedCids == [cid]
            && |r.completed| == |s.completed| + 1
            && r.completed[|s.completed|].files == [] && r.completed[|s.completed|].acts == [Kept(cid)]
  {
  }

  // A reseed that starts beside a running item: its stored file is taken for the item's current file, which
  // is then skipped, neither fetched nor stored.
  lemma ReseedFeedsRunningItem(s: Plugin, cid: string, body: seq<Token>, content: Option<Digests>, kept: string)
    requires Sound(s) && s.ia.item != "" && !s.uploading && BetweenFiles(s.ia) && s.ia.idx + 1 < |s.ia.files|
    requires cid in s.pins.pinning && !ReseedRefused(s, OwnerOf(s.pins, cid)) && kept != ""
    ensures var r := Step(Step(Step(s, PinDone(cid, false)), Reply(s.nextDownload, true, body, content, true)),
                          UploadDone(true, kept));
            && r.ia.item == s.ia.item && r.ia.idx == s.ia.idx + 1
            && r.ia.stored == s.ia.stored + [kept] && r.ia.acts == s.ia.acts + [Kept(kept)]
  {
    hide AllExact, InOrder, SumSizes, WithoutChecksum, IaInStep, ReseedInStep, NoFile, OwnerOf, CandidatesFor,
      PinFinished, FetchedWell, SetState, SetStored, Labels.Decode;
    var id := OwnerOf(s.pins, cid);
    var s1 := PinFinished(s, cid, false);
    ReseedStarted(s, cid);
    var s2 := s1.(downloads := s1.downloads - {s.nextDownload}, uploading := true, cargo := id);
    assert Step(s1, Reply(s.nextDownload, true, body, content, true)) == s2;
  }

  // A reseed that starts while an upload of the running item is outstanding: its own file is refused, which sets the item
  // back to pending, and the item's upload then ends the reseed "mirrored" with nothing of it stored.
  lemma ReseedBesideUpload(s: Plugin, cid: string, body: seq<Token>, content: Option<Digests>, accepted: bool, kept: string)
    requires Sound(s) && s.ia.item != "" && s.uploading && s.ia.item != OwnerOf(s.pins, cid)
    requires cid in s.pins.pinning && !ReseedRefused(s, OwnerOf(s.pins, cid))
    ensures var a, b := s.ia.item, OwnerOf(s.pins, cid);
            var r := Step(Step(Step(s, PinDone(cid, false)), Reply(s.nextDownload, true, body, content, accepted)),
                          UploadDone(true, kept));
            && r.completed == s.completed && r.settled == s.settled + [Settled(b, false)]
            && (b in s.rows ==> b in r.rows && r.rows[b].state == Mirrored)
            && (a in s.rows ==> a in r.rows && r.rows[a].state == Pending)
  {
    hide Honest, InOrder, SumSizes, WithoutChecksum, NoFile, OwnerOf, CandidatesFor, PinFinished, FetchedWell,
      Labels.Decode, Retryable, Enqueue, OneCandidate, Untouched, BetweenFiles;
    var s1 := PinFinished(s, cid, false);
    ReseedStarted(s, cid);
    BothNamed(s, cid);
    var s2 := IaPending(s1.(downloads := s1.downloads - {s.nextDownload}));
    assert Step(s1, Reply(s.nextDownload, true, body, content, accepted)) == s2;
  }

  lemma BothNamed(s: Plugin, cid: string)
    requires Sound(s) && s.ia.item != "" && s.uploading && !ReseedRefused(s, OwnerOf(s.pins, cid))
    ensures s.cargo == "" && OwnerOf(s.pins, cid) != ""
  {
    hide Honest, OneCandidate, Untouched, BetweenFiles, FileSent, NoFile, Retryable, OwnerOf, CandidatesFor;
    KnownId(s, OwnerOf(s.pins, cid));
  }

  // An upload left behind by a cancellation settles the next reseed: its item says "mirrored" while the
  // download still runs, and the download's next report sets it back to "mirroring" with nobody at work.
  lemma StrandedUploadSettlesReseed(s: Plugin, cid: string, kept: string, recv: int, size: int)
    requires s.ia.item == "" && s.reseed.item == "" && s.uploading && s.downloads == map[]
    requires cid in s.pins.pinning && !ReseedRefused(s, OwnerOf(s.pins, cid)) && s.pins.cidToItem.Keys == {cid}
    requires OwnerOf(s.pins, cid) in s.rows && OwnerOf(s.pins, cid) != ""
    ensures var id := OwnerOf(s.pins, cid);
            var r := Step(Step(s, PinDone(cid, false)), UploadDone(true, kept));
            var r' := Step(r, Progress(s.nextDownload, recv, size));
            && id in r.rows && r.rows[id].state == Mirrored && s.nextDownload in r.downloads
            && id in r'.rows && r'.rows[id].state == Mirroring && !PreserveOwnership.HasOwner(r', id)
  {
    hide FilePercent, ReseedRefused, CandidatesFor, PinFinished, Labels.Decode;
    ReseedStarted(s, cid);
    assert s.pins.cidToItem - {cid} == map[];
  }
}
