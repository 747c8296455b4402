/** What a run that ends in "mirrored" has done. While the machine keeps in step, each running job has exactly
    one outstanding download or upload and it is the right one; a run that completes then fetched, checked and
    stored every manifest entry once and in order. */
module PreserveRuns {
  import opened Basics
  import opened IaFiles
  import opened Inscriptions
  import opened PreserveSteps
  import Labels
  import Storage = StorageClients

  // The acts of the first n files: each fetched and found no mismatch, sent, and kept under its CID.
  predicate InOrder(acts: seq<Act>, files: seq<IaFileEntry>, stored: seq<string>, n: nat) {
    && n <= |files| && n <= |stored| && 3 * n <= |acts|
    && (forall i | 0 <= i < n :: FileDone(acts[3 * i], acts[3 * i + 1], acts[3 * i + 2], files[i], stored[i]))
  }

  predicate FetchedWell(act: Act, entry: IaFileEntry) {
    act.Fetched? && act.entry == entry && Passing(act.content, entry)
  }

  predicate FileDone(fetched: Act, sent: Act, kept: Act, entry: IaFileEntry, cid: string) {
    FetchedWell(fetched, entry) && sent == Sent(entry) && kept == Kept(cid)
  }

  function WithoutChecksum(files: seq<IaFileEntry>): nat {
    if files == [] then 0
    else WithoutChecksum(files[..|files| - 1]) + if HasChecksum(files[|files| - 1]) then 0 else 1
  }

  // What the word "mirrored" stands for: all files of the manifest, in order, each fetched, checked and
  // stored once; the CIDs in manifest order; the unverified ones counted; all bytes accounted for.
  predicate Exact(r: Completed) {
    && r.files != [] && |r.stored| == |r.files| && |r.acts| == 3 * |r.files|
    && InOrder(r.acts, r.files, r.stored, |r.files|)
    && r.unverified == WithoutChecksum(r.files)
    && r.done == r.total == SumSizes(r.files)
  }

  predicate AllExact(completed: seq<Completed>) {
    forall r | r in completed :: Exact(r)
  }

  // The first idx files are stored and nothing else was done.
  predicate BetweenFiles(ia: IaRun) {
    && ia.files != [] && ia.idx <= |ia.files| && |ia.stored| == ia.idx && |ia.acts| == 3 * ia.idx
    && InOrder(ia.acts, ia.files, ia.stored, ia.idx)
    && ia.unverified == WithoutChecksum(ia.files[..ia.idx])
    && ia.done == SumSizes(ia.files[..ia.idx]) && ia.total == SumSizes(ia.files)
  }

  // File idx was fetched and handed to storage.
  predicate FileSent(ia: IaRun) {
    && ia.idx < |ia.files| && |ia.stored| == ia.idx && |ia.acts| == 3 * ia.idx + 2
    && InOrder(ia.acts, ia.files, ia.stored, ia.idx)
    && FetchedWell(ia.acts[3 * ia.idx], ia.files[ia.idx]) && ia.acts[3 * ia.idx + 1] == Sent(ia.files[ia.idx])
    && ia.unverified == WithoutChecksum(ia.files[..ia.idx + 1])
    && ia.done == SumSizes(ia.files[..ia.idx]) && ia.total == SumSizes(ia.files)
  }

  predicate Untouched(ia: IaRun) {
    ia == NO_RUN.(item := ia.item, iaId := ia.iaId, tracked := ia.tracked)
  }

  predicate OnlyDownload(s: Plugin, token: nat, task: Task) {
    s.downloads == map[token := task] && !s.uploading
  }

  predicate IaInStep(s: Plugin) {
    || (OnlyDownload(s, s.ia.tracked, ManifestTask(s.ia.iaId)) && Untouched(s.ia))
    || (BetweenFiles(s.ia) && s.ia.idx < |s.ia.files| &&
        OnlyDownload(s, s.ia.tracked, FileTask(s.ia.iaId, s.ia.files[s.ia.idx], s.ia.item)))
    || (FileSent(s.ia) && s.uploading && s.cargo == "" && s.downloads == map[])
  }

  // The one download is a candidate of the running reseed.
  predicate OneCandidate(s: Plugin) {
    exists t | t in s.downloads ::
      t != s.ia.tracked && t < s.nextDownload && s.downloads[t].CandidateTask? &&
      s.downloads[t].item == s.reseed.item && s.downloads == map[t := s.downloads[t]]
  }

  predicate ReseedInStep(s: Plugin) {
    (s.downloads == map[] && s.uploading && s.cargo == s.reseed.item) || (OneCandidate(s) && !s.uploading)
  }

  predicate Quiet(s: Plugin) {
    s.downloads == map[] && !s.uploading
  }

  predicate InStep(s: Plugin) {
    && "" !in s.rows && s.ia.tracked < s.nextDownload
    && (s.ia.item != "" ==> Retryable(s.catalog, s.ia.item))
    && (if s.ia.item != "" then s.reseed.item == "" && IaInStep(s)
        else if s.reseed.item != "" then ReseedInStep(s)
        else Quiet(s))
  }

  // Every reseed that ended in "mirrored" did so by the upload of its own file.
  predicate AllOwn(settled: seq<Settled>) {
    forall r | r in settled :: r.own
  }

  predicate Honest(s: Plugin) {
    AllExact(s.completed) && AllOwn(s.settled)
  }

  predicate Sound(s: Plugin) {
    InStep(s) && Honest(s)
  }

  // What breaks the step, as a caller or a peer could see it beforehand: cancelling the running item while
  // its upload is outstanding, a reseed starting beside a running item, a stored file without a CID.
  predicate Allowed(s: Plugin, e: Event) {
    match e
    case Abort(id) => !(s.ia.item != "" && s.ia.item == id && s.uploading)
    case PinDone(cid, ok) =>
      ok || s.ia.item == "" || cid !in s.pins.pinning || ReseedRefused(s, OwnerOf(s.pins, cid))
    case UploadDone(ok, cid) => ok && s.uploading && s.ia.item != "" ==> cid != ""
    case _ => true
  }

  // ----- extending the record -----

  lemma InOrderPrefix(acts: seq<Act>, more: seq<Act>, files: seq<IaFileEntry>, stored: seq<string>, extra: seq<string>, n: nat)
    requires InOrder(acts, files, stored, n)
    ensures InOrder(acts + more, files, stored + extra, n)
  {
    forall i | 0 <= i < n
      ensures FileDone((acts + more)[3 * i], (acts + more)[3 * i + 1], (acts + more)[3 * i + 2], files[i], (stored + extra)[i])
    {
      assert FileDone(acts[3 * i], acts[3 * i + 1], acts[3 * i + 2], files[i], stored[i]);
    }
  }

  lemma SumsOneMore(files: seq<IaFileEntry>, n: nat)
    requires n < |files|
    ensures SumSizes(files[..n + 1]) == SumSizes(files[..n]) + files[n].size
    ensures WithoutChecksum(files[..n + 1]) == WithoutChecksum(files[..n]) + if HasChecksum(files[n]) then 0 else 1
  {
    assert files[..n + 1][..n] == files[..n];
  }

  lemma Stored(ia: IaRun, cid: string)
    requires FileSent(ia)
    ensures cid != "" ==> BetweenFiles(FileStored(ia, cid))
    ensures cid == "" ==> |FileStored(ia, cid).stored| != FileStored(ia, cid).idx
  {
    hide Exact, VerifyIaFile, HasChecksum, FileDone, FetchedWell, InOrder;
    if cid != "" {
      SumsOneMore(ia.files, ia.idx);
      StoredInOrder(ia, cid);
    }
  }

  lemma StoredInOrder(ia: IaRun, cid: string)
    requires FileSent(ia) && cid != ""
    ensures InOrder(FileStored(ia, cid).acts, ia.files, ia.stored + [cid], ia.idx + 1)
  {
    hide VerifyIaFile, HasChecksum, SumSizes, WithoutChecksum;
    InOrderPrefix(ia.acts, [Kept(cid)], ia.files, ia.stored, [cid], ia.idx);
  }

  lemma FetchRecorded(ia: IaRun, content: Option<Digests>)
    requires BetweenFiles(ia) && ia.idx < |ia.files|
    requires Passing(content, ia.files[ia.idx])
    ensures FileSent(ia.(
              unverified := ia.unverified + (if VerifyIaFile(content, ia.files[ia.idx]) == Unverified then 1 else 0),
              acts := ia.acts + [Fetched(ia.files[ia.idx], content), Sent(ia.files[ia.idx])]))
  {
    hide HasChecksum, FileDone, InOrder, SumSizes;
    InOrderPrefix(ia.acts, [Fetched(ia.files[ia.idx], content), Sent(ia.files[ia.idx])], ia.files, ia.stored, [], ia.idx);
    assert ia.stored + [] == ia.stored;
    SumsOneMore(ia.files, ia.idx);
  }

  // ----- the handlers of a running item -----

  predicate Undisturbed(s: Plugin) {
    && "" !in s.rows && s.ia.tracked < s.nextDownload && s.ia.item != "" && s.reseed.item == "" && Quiet(s)
    && Retryable(s.catalog, s.ia.item) && Honest(s)
  }

  lemma FailOrPendSound(s: Plugin)
    requires Undisturbed(s)
    ensures Sound(IaFail(s)) && Sound(IaPending(s))
  {
    hide AllExact, IaInStep, ReseedInStep, Retryable;
  }

  lemma FinishSound(s: Plugin)
    requires Undisturbed(s) && BetweenFiles(s.ia) && s.ia.idx == |s.ia.files|
    ensures Sound(IaFinish(s))
  {
    hide InOrder, IaInStep, ReseedInStep, Retryable;
    assert s.ia.files[..s.ia.idx] == s.ia.files;
    assert Exact(RunRecord(s.ia));
    var r := IaFinish(s);
    forall x | x in r.completed ensures Exact(x) {
      assert x in s.completed || x == RunRecord(s.ia);
    }
  }

  lemma NextFileSound(s: Plugin)
    requires Undisturbed(s) && BetweenFiles(s.ia)
    ensures Sound(IaNextFile(s))
  {
    hide InOrder, Exact, AllExact, SumSizes, WithoutChecksum, ReseedInStep, Retryable;
    if s.ia.idx == |s.ia.files| {
      FinishSound(s);
    }
  }

  lemma ManifestSound(s: Plugin, ok: bool, body: seq<Token>)
    requires Undisturbed(s) && Untouched(s.ia)
    ensures Sound(ManifestReply(s, ok, body))
  {
    hide AllExact, Sound, IaFail, IaNextFile, Parsed;
    if !ok || Parsed(body) == [] {
      FailOrPendSound(s);
    } else {
      var files := Parsed(body);
      NextFileSound(s.(ia := s.ia.(files := files, done := 0, total := SumSizes(files))));
    }
  }

  lemma FileReplySound(s: Plugin, ok: bool, content: Option<Digests>, accepted: bool)
    requires Undisturbed(s) && BetweenFiles(s.ia) && s.ia.idx < |s.ia.files|
    ensures Sound(FileReply(s, s.ia.files[s.ia.idx], ok, content, accepted))
  {
    hide AllExact, BetweenFiles, FileSent, VerifyIaFile, ReseedInStep, Retryable, IaFail, IaPending;
    var entry := s.ia.files[s.ia.idx];
    if !ok || VerifyIaFile(content, entry) == Mismatch {
      FailOrPendSound(s);
    } else {
      FetchRecorded(s.ia, content);
      var ia := s.ia.(unverified := s.ia.unverified + (if VerifyIaFile(content, entry) == Unverified then 1 else 0),
                      acts := s.ia.acts + [Fetched(entry, content), Sent(entry)]);
      FailOrPendSound(s.(ia := ia));
    }
  }

  lemma UploadDoneSound(s: Plugin, ok: bool, cid: string)
    requires Sound(s) && s.uploading && s.ia.item != ""
    ensures Sound(UploadFinished(s.(uploading := false), ok, cid)) <==> (ok ==> cid != "")
  {
    hide AllExact, ReseedInStep, Retryable, IaPending, IaNextFile, Exact, BetweenFiles, FileSent,
      FileStored;
    var s1 := s.(uploading := false);
    FailOrPendSound(s1);
    if ok {
      Stored(s.ia, cid);
      KeepsRun(s.ia, cid);
      var s2 := s1.(ia := FileStored(s.ia, cid));
      if cid != "" {
        NextFileSound(s2);
      } else {
        NoCidUnsound(s2);
      }
    }
  }

  lemma KeepsRun(ia: IaRun, cid: string)
    requires FileSent(ia)
    ensures var r := FileStored(ia, cid); r.item == ia.item && r.tracked == ia.tracked && r.idx <= |r.files| && r.files != []
  {
    hide InOrder, SumSizes, WithoutChecksum, FetchedWell;
  }

  // After a file kept without a CID the machine is out of step, or the run has ended inexactly.
  lemma NoCidUnsound(s: Plugin)
    requires Quiet(s) && s.ia.item != "" && s.ia.files != [] && s.ia.idx <= |s.ia.files|
    requires |s.ia.stored| != s.ia.idx
    ensures !Sound(IaNextFile(s))
  {
    hide InOrder, SumSizes, WithoutChecksum, Retryable;
    if s.ia.idx == |s.ia.files| {
      var r := IaFinish(s);
      assert RunRecord(s.ia) == r.completed[|s.completed|];
      assert !Exact(RunRecord(s.ia));
    }
  }

  // ----- the handlers of a reseed -----

  predicate ReseedTakes(s: Plugin) {
    "" !in s.rows && s.ia.tracked < s.nextDownload && s.ia.item == "" && s.reseed.item != "" && Quiet(s) && Honest(s)
  }

  lemma TrySound(s: Plugin)
    requires ReseedTakes(s) && s.reseed.candidates != []
    ensures Sound(TryCandidate(s, s.reseed.item))
  {
    hide AllExact, IaInStep, Retryable;
    var r := TryCandidate(s, s.reseed.item);
    assert r.downloads ==
           map[s.nextDownload := CandidateTask(s.reseed.item, Labels.Decode(s.reseed.candidates[0]))];
    assert s.nextDownload in r.downloads;
  }

  lemma CandidateReplySound(s: Plugin, ok: bool, accepted: bool)
    requires ReseedTakes(s)
    ensures Sound(CandidateReply(s, s.reseed.item, ok, accepted))
  {
    hide AllExact, IaInStep, Retryable, TryCandidate;
    if !ok && s.reseed.candidates != [] {
      TrySound(s);
    }
  }

  lemma ReseedUploadSound(s: Plugin, ok: bool, cid: string)
    requires Sound(s) && s.uploading && s.ia.item == ""
    ensures Sound(UploadFinished(s.(uploading := false), ok, cid))
  {
    hide AllExact, IaInStep, Retryable;
  }

  lemma FinishInexact(s: Plugin)
    requires |s.ia.stored| != |s.ia.files| || |s.ia.acts| != 3 * |s.ia.files| || s.ia.files == []
    ensures !AllExact(IaFinish(s).completed)
  {
    hide InOrder, SumSizes, WithoutChecksum;
    assert RunRecord(s.ia) == IaFinish(s).completed[|s.completed|];
    assert !Exact(RunRecord(s.ia));
  }

  lemma PinDoneSound(s: Plugin, cid: string, ok: bool)
    requires Sound(s)
    ensures Sound(PinFinished(s, cid, ok)) <==> Allowed(s, PinDone(cid, ok))
  {
    hide AllExact, IaInStep, ReseedInStep, Retryable, CandidatesFor, NoFile, TryCandidate;
    if cid in s.pins.pinning && !ok {
      var id := OwnerOf(s.pins, cid);
      var s1 := s.(pins := s.pins.(cidToItem := s.pins.cidToItem - {cid}, pinning := s.pins.pinning - {cid}));
      SameCandidates(s, s1, id);
      if !ReseedRefused(s, id) {
        KnownId(s, id);
        var s2 := s1.(reseed := Reseed(id, cid, CandidatesFor(s, id), 0));
        if s.ia.item == "" {
          TrySound(s2);
        } else {
          JoinsRun(s, s2);
        }
      } else {
        PinsOnly(s, s1, SetState(s1.rows, id, Failed));
      }
    } else if cid in s.pins.pinning {
      var s1 := s.(pins := s.pins.(cidToItem := s.pins.cidToItem - {cid}, pinning := s.pins.pinning - {cid}));
      PinsOnly(s, s1, SetState(s1.rows, OwnerOf(s.pins, cid), Mirrored));
    }
  }

  // A reseed joins a running item.
  lemma JoinsRun(s: Plugin, s2: Plugin)
    requires Sound(s) && s.ia.item != "" && s.reseed.item == ""
    requires s2 == s.(pins := s2.pins, reseed := s2.reseed) && s2.reseed.item != "" && s2.reseed.candidates != []
    ensures !Sound(TryCandidate(s2, s2.reseed.item))
  {
    hide Honest, IaInStep, Retryable, ReseedInStep;
  }

  lemma SameCandidates(s: Plugin, s1: Plugin, id: string)
    requires s1 == s.(pins := s1.pins)
    ensures CandidatesFor(s1, id) == CandidatesFor(s, id)
  {
    hide Labels.Candidates;
  }

  // Without an id there is no label, and without a label no candidate.
  lemma KnownId(s: Plugin, id: string)
    requires "" !in s.rows && CandidatesFor(s, id) != []
    ensures id != ""
  {
    Labels.NothingToTry();
  }

  // A step that changes neither the jobs nor what they wait for, and no row's id.
  lemma PinsOnly(s: Plugin, s1: Plugin, rows: Rows)
    requires Sound(s) && s1 == s.(pins := s1.pins) && "" !in rows
    ensures Sound(s1.(rows := rows))
  {
    hide AllExact, BetweenFiles, FileSent, Untouched, Retryable;
  }

  // What a failed pin starts.
  lemma ReseedStarted(s: Plugin, cid: string)
    requires cid in s.pins.pinning && !ReseedRefused(s, OwnerOf(s.pins, cid))
    ensures var r := PinFinished(s, cid, false);
            && r.ia == s.ia && r.uploading == s.uploading && r.rows == s.rows && r.catalog == s.catalog
            && r.downloads == s.downloads[s.nextDownload := CandidateTask(
                 OwnerOf(s.pins, cid), Labels.Decode(CandidatesFor(s, OwnerOf(s.pins, cid))[0]))]
            && r.reseed.item == OwnerOf(s.pins, cid) && r.nextDownload == s.nextDownload + 1
            && r.completed == s.completed && r.settled == s.settled && r.cargo == s.cargo
            && r.queue == s.queue && r.storage == s.storage
            && r.pins.cidToItem == s.pins.cidToItem - {cid}
  {
    hide NoFile, OwnerOf, Labels.Candidates;
  }

  // ----- downloads -----

  // The one outstanding download of a running item, taken out of the list.
  lemma IaReplySound(s: Plugin, token: nat, ok: bool, body: seq<Token>, content: Option<Digests>, accepted: bool)
    requires Sound(s) && s.ia.item != "" && token in s.downloads
    ensures Sound(DownloadReply(s, token, ok, body, content, accepted))
  {
    hide AllExact, ReseedInStep, Retryable, BetweenFiles, FileSent, Untouched, ManifestReply, FileReply, CandidateReply;
    var s1 := s.(downloads := s.downloads - {token});
    assert s1.downloads == map[];
    if s.downloads[token].ManifestTask? {
      ManifestSound(s1, ok, body);
    } else {
      FileReplySound(s1, ok, content, accepted);
    }
  }

  lemma ReseedReplySound(s: Plugin, token: nat, ok: bool, body: seq<Token>, content: Option<Digests>, accepted: bool)
    requires Sound(s) && s.ia.item == "" && token in s.downloads
    ensures Sound(DownloadReply(s, token, ok, body, content, accepted))
  {
    hide AllExact, IaInStep, Retryable, ManifestReply, FileReply, CandidateReply;
    var s1 := s.(downloads := s.downloads - {token});
    assert s1.downloads == map[];
    CandidateReplySound(s1, ok, accepted);
  }

  lemma ProgressSound(s: Plugin, token: nat, recv: int, size: int)
    requires Sound(s)
    ensures Sound(DownloadProgress(s, token, recv, size))
  {
    hide AllExact, InOrder, SumSizes, WithoutChecksum, FetchedWell, Percent, FilePercent, Retryable;
    if token in s.downloads && s.downloads[token].FileTask? {
      SameRecord(s.ia, s.ia.(recv := recv, announced := size));
    }
  }

  lemma SameRecord(ia: IaRun, ia': IaRun)
    requires ia' == ia.(recv := ia'.recv, announced := ia'.announced)
    ensures BetweenFiles(ia') == BetweenFiles(ia) && FileSent(ia') == FileSent(ia)
  {
    hide InOrder, SumSizes, WithoutChecksum, FetchedWell;
  }

  // ----- commands -----

  lemma MirrorSound(s: Plugin, id: string)
    requires Sound(s)
    ensures Sound(MirrorItem(s, id))
  {
    hide AllExact, IaInStep, ReseedInStep, Retryable, Untouched, ArchiveId, FromArchive, BetweenFiles,
      FileSent;
    var source := SourceOf(s, id);
    if MirrorCode(s, id) == Done {
      if FromArchive(source.cid) {
        NamedId(s, id);
        StartSound(s, id, ArchiveId(source));
      } else {
        var r := StartPin(s, id, source.cid);
        PinsOnly(s, s.(pins := r.pins), r.rows);
      }
    }
  }

  lemma NamedId(s: Plugin, id: string)
    requires "" !in s.rows && FromArchive(SourceOf(s, id).cid) && ArchiveId(SourceOf(s, id)) != ""
    ensures id != "" && id in s.rows && Retryable(s.catalog, id)
  {
  }

  lemma StartSound(s: Plugin, id: string, iaId: string)
    requires Sound(s) && s.ia.item == "" && s.reseed.item == "" && id != "" && Retryable(s.catalog, id)
    ensures Sound(StartIa(s, id, iaId))
  {
    hide AllExact, ReseedInStep, Retryable, BetweenFiles, FileSent;
    assert StartIa(s, id, iaId).downloads == map[s.nextDownload := ManifestTask(iaId)];
  }

  lemma QueueOnly(s: Plugin, queue: seq<string>)
    requires Sound(s)
    ensures Sound(s.(queue := queue))
  {
    hide AllExact, BetweenFiles, FileSent, Untouched, Retryable;
  }

  lemma RowsOnly(s: Plugin, rows: Rows)
    requires Sound(s) && "" !in rows
    ensures Sound(s.(rows := rows))
  {
    hide AllExact, BetweenFiles, FileSent, Untouched, Retryable;
  }

  lemma DrainSound(s: Plugin)
    requires Sound(s)
    ensures Sound(DrainAutoQueue(s))
  {
    hide Sound, MirrorItem;
    if Idle(s) {
      var n := Skipped(s.rows, s.queue);
      QueueOnly(s, []);
      if n < |s.queue| {
        QueueOnly(s, s.queue[n + 1..]);
        MirrorSound(s.(queue := s.queue[n + 1..]), s.queue[n]);
      }
    }
  }

  lemma AutoOnSound(s: Plugin, listing: seq<string>)
    requires Sound(s)
    ensures Sound(AutoPreserveOn(s, listing))
  {
    hide Sound, DrainAutoQueue, Wanted;
    var queue := EnqueueAll(s.queue, Choose(listing, id => Wanted(s, id)));
    QueueOnly(s, queue);
    DrainSound(s.(queue := queue));
  }

  lemma DiscoverSound(s: Plugin, autoOn: bool, ids: seq<string>)
    requires Sound(s)
    ensures Sound(Discovered(s, autoOn, ids))
  {
    hide AllExact, IaInStep, ReseedInStep, Retryable, DrainAutoQueue, WithinCap;
    var s1 := s.(rows := s.rows + NewRows(s, ids));
    RowsOnly(s, s.rows + NewRows(s, ids));
    var queue := if autoOn then EnqueueAll(s1.queue, Choose(ids, id => id in s1.rows && WithinCap(s1, id)))
                 else s1.queue;
    QueueOnly(s1, queue);
    DrainSound(s1.(queue := queue));
  }

  lemma AbortSound(s: Plugin, id: string)
    requires Sound(s)
    ensures Sound(AbortPreserve(s, id)) <==> Allowed(s, Abort(id))
  {
    hide AllExact, BetweenFiles, FileSent, Untouched, WithoutId, Retryable;
    if s.ia.item == id && s.ia.item != "" {
      if !s.uploading {
        assert s.downloads - {s.ia.tracked} == map[];
      }
    } else {
      assert s.ia.item == "" ==> s.downloads - {s.ia.tracked} == s.downloads;
    }
  }

  lemma UnpinDoneSound(s: Plugin, cid: string, ok: bool)
    requires Sound(s)
    ensures Sound(UnpinFinished(s, cid, ok))
  {
    hide Sound, FilesLeft;
    NoEmptyId(s);
    var r := UnpinFinished(s, cid, ok);
    var s1 := s.(pins := r.pins);
    PinsOnly(s, s1, r.rows);
  }

  lemma NoEmptyId(s: Plugin)
    requires Sound(s)
    ensures "" !in s.rows
  {
  }

  lemma BootSound(catalog: Catalog, saved: Rows)
    ensures Sound(Boot(catalog, saved))
  {
  }

  // ----- every step -----

  lemma CommandSound(s: Plugin, e: Event)
    requires Sound(s)
    requires e.Mirror? || e.Unmirror? || e.RemoveRow? || e.RemoveAll? || e.Unfollow? || e.StorageState? || e.AutoOn? ||
             e.Discover? || e.HealthTick? || e.Restart? || e.UnpinDone?
    ensures Sound(Step(s, e))
  {
    hide Sound, MirrorItem, AutoPreserveOn, Discovered, DrainAutoQueue, UnpinFinished, Boot;
    NoEmptyId(s);
    match e
    case Mirror(id) => MirrorSound(s, id);
    case Unmirror(id) => PinsOnly(s, s.(pins := UnmirrorItem(s, id).pins), s.rows);
    case RemoveRow(id) => RowsOnly(s, s.rows - {id});
    case RemoveAll =>
      RowsOnly(s, map[]);
      QueueOnly(s.(rows := map[]), []);
    case Unfollow(channelId) => RowsOnly(s, UnfollowChannel(s, channelId).rows);
    case StorageState(storage) => StorageOnly(s, storage);
    case AutoOn(listing) => AutoOnSound(s, listing);
    case Discover(autoOn, ids) => DiscoverSound(s, autoOn, ids);
    case HealthTick => DrainSound(s);
    case Restart(loaded) => BootSound(s.catalog, loaded);
    case UnpinDone(cid, ok) => UnpinDoneSound(s, cid, ok);
  }

  lemma StorageOnly(s: Plugin, storage: Storage.Readiness)
    requires Sound(s)
    ensures Sound(s.(storage := storage))
  {
    hide AllExact, BetweenFiles, FileSent, Untouched, Retryable;
  }

  lemma ReplySound(s: Plugin, e: Event)
    requires Sound(s) && (e.Reply? || e.Progress? || e.UploadDone?)
    ensures Sound(Step(s, e)) <==> Allowed(s, e)
  {
    hide Sound, DownloadReply, DownloadProgress, UploadFinished;
    match e
    case Reply(token, ok, body, content, accepted) =>
      if token !in s.downloads {
        Ignored(s, token, ok, body, content, accepted);
      } else if s.ia.item != "" {
        IaReplySound(s, token, ok, body, content, accepted);
      } else {
        ReseedReplySound(s, token, ok, body, content, accepted);
      }
    case Progress(token, recv, size) => ProgressSound(s, token, recv, size);
    case UploadDone(ok, cid) =>
      if s.uploading {
        if s.ia.item != "" {
          UploadDoneSound(s, ok, cid);
        } else {
          ReseedUploadSound(s, ok, cid);
        }
      }
  }

  lemma Ignored(s: Plugin, token: nat, ok: bool, body: seq<Token>, content: Option<Digests>, accepted: bool)
    requires token !in s.downloads
    ensures DownloadReply(s, token, ok, body, content, accepted) == s
  {
  }

  // One step keeps the machine in step, every finished run exact and every finished reseed by its own file, if and
  // only if it is allowed.
  lemma StepSound(s: Plugin, e: Event)
    requires Sound(s)
    ensures Sound(Step(s, e)) <==> Allowed(s, e)
  {
    hide Sound, Step;
    if e.Abort? {
      AbortStep(s, e.id);
    } else if e.PinDone? {
      PinDoneStep(s, e.cid, e.ok);
    } else if e.Reply? || e.Progress? || e.UploadDone? {
      ReplySound(s, e);
    } else {
      CommandSound(s, e);
    }
  }

  lemma AbortStep(s: Plugin, id: string)
    requires Sound(s)
    ensures Sound(Step(s, Abort(id))) <==> Allowed(s, Abort(id))
  {
    hide Sound, AbortPreserve;
    AbortSound(s, id);
  }

  lemma PinDoneStep(s: Plugin, cid: string, ok: bool)
    requires Sound(s)
    ensures Sound(Step(s, PinDone(cid, ok))) <==> Allowed(s, PinDone(cid, ok))
  {
    hide Sound, PinFinished;
    PinDoneSound(s, cid, ok);
  }

  // A whole run, restarts included, stays in step at every point if and only if each of its events was
  // allowed when it came.
  lemma InStepThroughout(s: Plugin, events: seq<Event>)
    requires Sound(s)
    ensures Throughout(s, events, Sound) <==> EachStep(s, events, Allowed)
  {
    hide Sound, Allowed, Step, Throughout, EachStep;
    forall p, e | Sound(p) ensures Sound(Step(p, e)) <==> Allowed(p, e) {
      StepSound(p, e);
    }
    KeptIffAllowed(s, events, Sound, Allowed);
  }
}
