/** Whoever is being mirrored has somebody at work on it: in every run, overlapping jobs, failures and restarts
    included, a row in state "mirroring" is the running item, the running reseed, or waits for its own pin. What
    can break this is an upload that completes the running reseed while the reseed's own download goes on. */
module PreserveOwnership {
  import opened Basics
  import opened Inscriptions
  import opened IaFiles
  import opened PreserveSteps
  import Labels
  import Storage = StorageClients

  // ----- downloads -----

  // Tokens are new when they are given out, and the tracked download is one of an item preserve.
  predicate FreshTokens(s: Plugin) {
    && (forall t | t in s.downloads :: t < s.nextDownload)
    && s.ia.tracked < s.nextDownload && (s.ia.tracked in s.downloads ==> !s.downloads[s.ia.tracked].CandidateTask?)
  }

  // There is at most one candidate download, and it is for the running reseed.
  predicate CandidateHeld(s: Plugin) {
    forall t | t in s.downloads && s.downloads[t].CandidateTask? ::
      && s.downloads[t].item == s.reseed.item != "" && s.reseed.item in s.catalog
      && forall u | u in s.downloads && s.downloads[u].CandidateTask? :: u == t
  }

  predicate Tidy(s: Plugin) {
    FreshTokens(s) && CandidateHeld(s)
  }

  predicate HasCandidate(s: Plugin) {
    exists t | t in s.downloads :: s.downloads[t].CandidateTask?
  }

  // No download of an item preserve is outstanding.
  predicate NoIaTask(s: Plugin) {
    forall t | t in s.downloads :: s.downloads[t].CandidateTask?
  }

  // At most one download of an item preserve or one upload is outstanding.
  predicate OneIaTask(s: Plugin) {
    && (forall t, u | t in s.downloads && u in s.downloads && !s.downloads[t].CandidateTask? && !s.downloads[u].CandidateTask? ::
          t == u)
    && (s.uploading ==> NoIaTask(s))
  }

  // No upload can complete without a running item to take it.
  predicate Clear(s: Plugin) {
    if s.ia.item == "" then !s.uploading else OneIaTask(s)
  }

  predicate Apart(s: Plugin) {
    HasCandidate(s) ==> Clear(s)
  }

  // ----- rows -----

  predicate WaitsForPin(catalog: Catalog, p: Pins, id: string) {
    id in catalog && catalog[id].cid != "" && catalog[id].cid in p.cidToItem && p.cidToItem[catalog[id].cid] == id
  }

  predicate HasOwner(s: Plugin, id: string) {
    id == s.ia.item || id == s.reseed.item || WaitsForPin(s.catalog, s.pins, id)
  }

  predicate RowsOwned(s: Plugin) {
    forall id | id in s.rows && s.rows[id].state == Mirroring :: HasOwner(s, id)
  }

  predicate KnownRows(s: Plugin) {
    "" !in s.rows && s.rows.Keys <= s.catalog.Keys
  }

  // Whatever CID is in the books has its answer still to come, and only an item without a CID of its own has
  // several files to unpin.
  predicate Booked(catalog: Catalog, p: Pins) {
    && (forall c | c in p.cidToItem :: c in p.pinning || c in p.unpinning)
    && (forall id | id in p.remaining && id in catalog && catalog[id].cid != "" :: p.remaining[id] <= 1)
  }

  predicate Listed(s: Plugin) {
    RowsOwned(s) && KnownRows(s) && Booked(s.catalog, s.pins)
  }

  predicate Owned(s: Plugin) {
    Tidy(s) && Apart(s) && Listed(s)
  }

  // What keeps it so, as the program could see it beforehand: the running item is not cancelled with an upload
  // outstanding beside a reseed's download, and no reseed starts while an upload has no running item to take it
  // or may yet lose it.
  predicate KeepsOwners(s: Plugin, e: Event) {
    match e
    case Abort(id) => s.ia.item == id ==> !(HasCandidate(s) && s.uploading)
    case PinDone(cid, ok) => ok || cid !in s.pins.pinning || ReseedRefused(s, OwnerOf(s.pins, cid)) || Clear(s)
    case _ => true
  }

  // ----- frames -----

  // The rows and pins are as before and each owner still stands.
  lemma RowsFrame(s: Plugin, r: Plugin)
    requires Listed(s) && r.rows == s.rows && r.pins == s.pins && r.catalog == s.catalog
    requires r.ia.item == s.ia.item && r.reseed.item == s.reseed.item
    ensures Listed(r)
  {
    hide Booked;
    forall id | id in r.rows && r.rows[id].state == Mirroring ensures HasOwner(r, id) {
      assert HasOwner(s, id);
    }
  }

  // The tasks are as before.
  lemma TasksFrame(s: Plugin, r: Plugin)
    requires r.downloads == s.downloads && r.nextDownload == s.nextDownload && r.uploading == s.uploading
    requires r.ia.item == s.ia.item && r.ia.tracked == s.ia.tracked && r.reseed.item == s.reseed.item
    requires r.catalog == s.catalog
    ensures Tidy(r) == Tidy(s) && Apart(r) == Apart(s) && HasCandidate(r) == HasCandidate(s) && NoIaTask(r) == NoIaTask(s)
  {
    assert CandidateHeld(r) == CandidateHeld(s);
  }

  // ----- handlers -----

  // A task of an item preserve has just been answered: if a candidate is outstanding, no upload is, and no
  // further task of a running item.
  predicate Room(s: Plugin) {
    Tidy(s) && Listed(s) && (HasCandidate(s) ==> !s.uploading && (s.ia.item != "" ==> NoIaTask(s)))
  }

  // The run's next download.
  lemma StartHeld(s: Plugin, ia: IaRun, task: Task)
    requires Room(s) && !task.CandidateTask? && ia.item == s.ia.item && ia.tracked == s.nextDownload
    requires s.ia.item != ""
    ensures Owned(StartDownload(s.(ia := ia), task))
  {
    hide RowsOwned, KnownRows, Booked;
    var r := StartDownload(s.(ia := ia), task);
    RowsFrame(s, r);
    assert forall t | t in r.downloads && r.downloads[t].CandidateTask? :: t in s.downloads && s.downloads[t] == r.downloads[t];
  }

  // The run ends: its row takes a final state.
  lemma IaEnds(s: Plugin, r: Plugin, state: ItemState)
    requires Room(s) && s.ia.item != "" && state != Mirroring
    requires r == s.(ia := r.ia, rows := r.rows, queue := r.queue, completed := r.completed) && r.ia.item == ""
    requires r.ia.tracked == s.ia.tracked
    requires r.rows == SetState(s.rows, s.ia.item, state) ||
             exists cids :: r.rows == SetState(SetStored(s.rows, s.ia.item, cids), s.ia.item, state)
    ensures Owned(r)
  {
    hide Booked, WaitsForPin;
    assert CandidateHeld(r);
    forall id | id in r.rows && r.rows[id].state == Mirroring ensures HasOwner(r, id) {
      assert HasOwner(s, id);
    }
  }

  lemma IaEnded(s: Plugin)
    requires Room(s) && s.ia.item != ""
    ensures Owned(IaFail(s)) && Owned(IaPending(s)) && Owned(IaFinish(s))
  {
    hide Room, Owned, Enqueue;
    IaEnds(s, IaFail(s), Failed);
    IaEnds(s, IaPending(s), Pending);
    assert IaFinish(s).rows == SetState(SetStored(s.rows, s.ia.item, s.ia.stored), s.ia.item, Mirrored);
    IaEnds(s, IaFinish(s), Mirrored);
  }

  // Changing the progress of the run and no more.
  lemma IaChanged(s: Plugin, ia: IaRun)
    requires ia.item == s.ia.item && ia.tracked == s.ia.tracked
    ensures Room(s) ==> Room(s.(ia := ia))
    ensures Owned(s) ==> Owned(s.(ia := ia))
  {
    hide Tidy, Listed, Apart, HasCandidate, NoIaTask;
    TasksFrame(s, s.(ia := ia));
    if Listed(s) {
      RowsFrame(s, s.(ia := ia));
    }
  }

  lemma NextFileOwned(s: Plugin)
    requires Room(s) && s.ia.item != ""
    ensures Owned(IaNextFile(s))
  {
    hide Room, Owned, IaFinish, IaFail, IaPending;
    IaEnded(s);
    if s.ia.idx < |s.ia.files| {
      StartHeld(s, s.ia.(tracked := s.nextDownload, recv := 0, announced := 0),
                FileTask(s.ia.iaId, s.ia.files[s.ia.idx], s.ia.item));
    }
  }

  // The reseed ends; nobody downloads for it any more.
  lemma ReseedEnds(s: Plugin, r: Plugin, state: ItemState)
    requires Room(s) && !HasCandidate(s) && s.reseed.item != "" && state != Mirroring
    requires r == s.(reseed := r.reseed, rows := SetState(s.rows, s.reseed.item, state), settled := r.settled)
    requires r.reseed.item == ""
    ensures Owned(r)
  {
    hide Booked, WaitsForPin;
    assert !HasCandidate(r);
    forall id | id in r.rows && r.rows[id].state == Mirroring ensures HasOwner(r, id) {
      assert HasOwner(s, id);
    }
  }

  lemma UploadFinishedOwned(s: Plugin, ok: bool, cid: string)
    requires Room(s) && (s.ia.item == "" ==> !HasCandidate(s))
    ensures Owned(UploadFinished(s, ok, cid))
  {
    hide Room, Owned, HasCandidate, IaNextFile, IaPending;
    if s.ia.item != "" {
      IaEnded(s);
      IaChanged(s, FileStored(s.ia, cid));
      NextFileOwned(s.(ia := FileStored(s.ia, cid)));
    } else if s.reseed.item != "" {
      ReseedEnds(s, UploadFinished(s, ok, cid), if ok then Mirrored else Failed);
    } else {
      RoomAlone(s);
    }
  }

  lemma RoomAlone(s: Plugin)
    requires Room(s) && !HasCandidate(s)
    ensures Owned(s)
  {
    hide Tidy, Listed;
  }

  lemma StartUploadOwned(s: Plugin, accepted: bool, cargo: string)
    requires Room(s) && (s.ia.item == "" ==> !HasCandidate(s))
    ensures Owned(StartUpload(s, accepted, cargo))
  {
    hide UploadFinished, Listed;
    if s.uploading || !accepted {
      UploadFinishedOwned(s, false, "");
    } else {
      var r := s.(uploading := true, cargo := cargo);
      RowsFrame(s, r);
      assert CandidateHeld(r);
    }
  }

  // ----- replies -----

  lemma TaskTaken(s: Plugin, token: nat)
    requires Owned(s) && token in s.downloads
    ensures var s1 := s.(downloads := s.downloads - {token});
            && Room(s1)
            && (s.downloads[token].CandidateTask? ==>
                s.downloads[token].item == s.reseed.item != "" && s.reseed.item in s.catalog &&
                !HasCandidate(s1) && Clear(s1))
  {
    hide Listed;
    var s1 := s.(downloads := s.downloads - {token});
    RowsFrame(s, s1);
    assert forall t | t in s1.downloads :: t in s.downloads && s1.downloads[t] == s.downloads[t];
  }

  lemma ManifestOwned(s: Plugin, ok: bool, body: seq<Token>)
    requires Room(s)
    ensures Owned(ManifestReply(s, ok, body)) || s.ia.item == ""
  {
    hide Room, Owned, IaFail, IaPending, IaFinish, IaNextFile, Parsed, SumSizes;
    if s.ia.item != "" {
      IaEnded(s);
      var ia := s.ia.(files := Parsed(body), done := 0, total := SumSizes(Parsed(body)));
      IaChanged(s, ia);
      NextFileOwned(s.(ia := ia));
    }
  }

  lemma FileOwned(s: Plugin, entry: IaFileEntry, ok: bool, content: Option<Digests>, accepted: bool)
    requires Room(s)
    ensures Owned(FileReply(s, entry, ok, content, accepted)) || s.ia.item == ""
  {
    hide Room, Owned, HasCandidate, IaFail, IaPending, IaFinish, VerifyIaFile, StartUpload;
    if s.ia.item != "" {
      IaEnded(s);
      var ia := s.ia.(unverified := s.ia.unverified + (if VerifyIaFile(content, entry) == Unverified then 1 else 0),
                      acts := s.ia.acts + [Fetched(entry, content), Sent(entry)]);
      IaChanged(s, ia);
      StartUploadOwned(s.(ia := ia), accepted, "");
    }
  }

  // A handler of a preserve that is no longer running does nothing.
  lemma NobodyRuns(s: Plugin)
    requires Room(s) && s.ia.item == ""
    ensures Owned(s)
  {
    hide Tidy, Listed;
  }

  // A candidate download starts for the running reseed when there is no other.
  lemma TryHeld(s: Plugin)
    requires Tidy(s) && Listed(s) && Clear(s) && !HasCandidate(s)
    requires s.reseed.item != "" && s.reseed.item in s.catalog && s.reseed.candidates != []
    ensures Owned(TryCandidate(s, s.reseed.item))
  {
    hide Listed;
    var r := TryCandidate(s, s.reseed.item);
    RowsFrame(s, r);
    assert forall t | t in r.downloads && t != s.nextDownload ::
             t in s.downloads && r.downloads[t] == s.downloads[t] && !s.downloads[t].CandidateTask?;
  }

  lemma CandidateOwned(s: Plugin, ok: bool, accepted: bool)
    requires Room(s) && s.reseed.item != "" && s.reseed.item in s.catalog && !HasCandidate(s) && Clear(s)
    ensures Owned(CandidateReply(s, s.reseed.item, ok, accepted))
  {
    hide Tidy, Listed, Owned, HasCandidate, Clear, StartUpload, TryCandidate;
    if ok {
      StartUploadOwned(s, accepted, s.reseed.item);
    } else if s.reseed.candidates != [] {
      TryHeld(s);
    } else {
      ReseedEnds(s, CandidateReply(s, s.reseed.item, ok, accepted), Failed);
    }
  }

  lemma ReplyOwned(s: Plugin, token: nat, ok: bool, body: seq<Token>, content: Option<Digests>, accepted: bool)
    requires Owned(s)
    ensures Owned(DownloadReply(s, token, ok, body, content, accepted))
  {
    hide Owned, Room, Clear, HasCandidate, CandidateReply, IaFail, IaNextFile, StartUpload, Parsed, SumSizes, VerifyIaFile;
    if token in s.downloads {
      var s1 := s.(downloads := s.downloads - {token});
      TaskTaken(s, token);
      if !s.downloads[token].CandidateTask? && s1.ia.item == "" {
        NobodyRuns(s1);
      } else {
        hide ManifestReply, FileReply;
        match s.downloads[token]
        case ManifestTask(_) => ManifestOwned(s1, ok, body);
        case FileTask(_, entry, _) => FileOwned(s1, entry, ok, content, accepted);
        case CandidateTask(item, _) => CandidateOwned(s1, ok, accepted);
      }
    }
  }

  // Showing progress on a row that has an owner.
  lemma ShowProgress(s: Plugin, id: string, percent: int)
    requires Owned(s) && (id in s.rows ==> HasOwner(s, id))
    ensures Owned(s.(rows := SetMirroring(s.rows, id, percent)))
  {
    hide WaitsForPin, Booked, Tidy, Apart;
    var r := s.(rows := SetMirroring(s.rows, id, percent));
    TasksFrame(s, r);
    forall x | x in r.rows && r.rows[x].state == Mirroring ensures HasOwner(r, x) {
      assert x == id || s.rows[x] == r.rows[x];
      assert HasOwner(s, x);
    }
  }

  lemma ProgressOwned(s: Plugin, token: nat, recv: int, size: int)
    requires Owned(s)
    ensures Owned(DownloadProgress(s, token, recv, size))
  {
    hide Owned, Percent, FilePercent;
    if token in s.downloads {
      match s.downloads[token]
      case ManifestTask(_) =>
      case FileTask(_, _, item) =>
        if s.ia.item == item {
          var ia := s.ia.(recv := recv, announced := size);
          IaChanged(s, ia);
          ShowProgress(s.(ia := ia), item, Percent(ia));
        }
      case CandidateTask(item, _) =>
        CandidateIs(s, token);
        ShowProgress(s, item, FilePercent(recv, size));
    }
  }

  lemma CandidateIs(s: Plugin, token: nat)
    requires Owned(s) && token in s.downloads && s.downloads[token].CandidateTask?
    ensures s.downloads[token].item == s.reseed.item
  {
  }

  lemma UploadDoneOwned(s: Plugin, ok: bool, cid: string)
    requires Owned(s)
    ensures Owned(Step(s, UploadDone(ok, cid)))
  {
    hide Listed, UploadFinished;
    if s.uploading {
      var s1 := s.(uploading := false);
      RowsFrame(s, s1);
      assert CandidateHeld(s1);
      UploadFinishedOwned(s1, ok, cid);
    }
  }

  // ----- pins -----

  // Everything but the row `id` keeps its owner when `cid` is taken out of the books.
  predicate OwnedBut(s: Plugin, id: string) {
    && Tidy(s) && KnownRows(s) && Booked(s.catalog, s.pins)
    && forall x | x in s.rows && s.rows[x].state == Mirroring && x != id :: HasOwner(s, x)
  }

  // The entry of `cid` and its call are gone; no counter has grown.
  predicate Taken(p: Pins, p': Pins, cid: string) {
    && p'.cidToItem == p.cidToItem - {cid}
    && (forall c | c in p.pinning && c != cid :: c in p'.pinning)
    && (forall c | c in p.unpinning && c != cid :: c in p'.unpinning)
    && (forall id | id in p'.remaining :: id in p.remaining && p'.remaining[id] <= p.remaining[id])
  }

  lemma StillWaits(catalog: Catalog, p: Pins, p': Pins, cid: string, x: string)
    requires Taken(p, p', cid) && WaitsForPin(catalog, p, x) && x != OwnerOf(p, cid)
    ensures WaitsForPin(catalog, p', x)
  {
  }

  lemma StillBooked(catalog: Catalog, p: Pins, p': Pins, cid: string)
    requires Taken(p, p', cid) && Booked(catalog, p)
    ensures Booked(catalog, p')
  {
  }

  lemma MappingTaken(s: Plugin, p: Pins, cid: string)
    requires Owned(s) && Taken(s.pins, p, cid)
    ensures OwnedBut(s.(pins := p), OwnerOf(s.pins, cid)) && Apart(s.(pins := p))
  {
    hide WaitsForPin, Taken, OwnerOf, Booked, Tidy, Apart;
    var r := s.(pins := p);
    TasksFrame(s, r);
    StillBooked(s.catalog, s.pins, p, cid);
    forall x | x in r.rows && r.rows[x].state == Mirroring && x != OwnerOf(s.pins, cid) ensures HasOwner(r, x) {
      assert HasOwner(s, x);
      if WaitsForPin(s.catalog, s.pins, x) {
        StillWaits(s.catalog, s.pins, p, cid, x);
      }
    }
  }

  lemma SettledBut(s: Plugin, rows: Rows, id: string, state: ItemState)
    requires OwnedBut(s, id) && Apart(s) && state != Mirroring
    requires rows == SetState(s.rows, id, state) || rows == SetState(SetStored(s.rows, id, []), id, state)
    ensures Owned(s.(rows := rows))
  {
    hide WaitsForPin, Booked, Tidy, Apart;
    var r := s.(rows := rows);
    TasksFrame(s, r);
    forall x | x in r.rows && r.rows[x].state == Mirroring ensures HasOwner(r, x) {
      assert HasOwner(s, x);
    }
  }

  // A reseed starts, and is owned exactly when no upload can complete it before its own download ends.
  lemma ReseedStarts(s: Plugin, id: string, cid: string, candidates: seq<string>)
    requires OwnedBut(s, id) && s.reseed.item == "" && id != "" && id in s.catalog && candidates != []
    ensures Owned(TryCandidate(s.(reseed := Reseed(id, cid, candidates, 0)), id)) <==> Clear(s)
  {
    hide WaitsForPin, Booked;
    var s1 := s.(reseed := Reseed(id, cid, candidates, 0));
    assert !HasCandidate(s1) && Clear(s1) == Clear(s);
    if Clear(s) {
      forall x | x in s1.rows && s1.rows[x].state == Mirroring ensures HasOwner(s1, x) {
        assert x != id ==> HasOwner(s, x);
      }
      TryHeld(s1);
    } else {
      TryUnclear(s1);
    }
  }

  lemma TryUnclear(s: Plugin)
    requires Tidy(s) && !Clear(s) && s.reseed.candidates != []
    ensures !Apart(TryCandidate(s, s.reseed.item))
  {
    var r := TryCandidate(s, s.reseed.item);
    assert r.downloads[s.nextDownload].CandidateTask?;
    assert forall t | t in s.downloads :: t in r.downloads && r.downloads[t] == s.downloads[t];
  }

  lemma PinOwned(s: Plugin, cid: string, ok: bool)
    requires Owned(s)
    ensures Owned(PinFinished(s, cid, ok)) <==> KeepsOwners(s, PinDone(cid, ok))
  {
    hide Owned, OwnedBut, OwnerOf, CandidatesFor, NoFile, TryCandidate, Apart, Clear;
    if cid in s.pins.pinning {
      var id := OwnerOf(s.pins, cid);
      var p := s.pins.(cidToItem := s.pins.cidToItem - {cid}, pinning := s.pins.pinning - {cid});
      var s1 := s.(pins := p);
      MappingTaken(s, p, cid);
      SameChoice(s, s1, id);
      if ok {
        SettledBut(s1, SetState(s1.rows, id, Mirrored), id, Mirrored);
      } else if ReseedRefused(s1, id) {
        SettledBut(s1, SetState(s1.rows, id, Failed), id, Failed);
      } else {
        Keys(s);
        Named(s1, id);
        ReseedStarts(s1, id, cid, CandidatesFor(s1, id));
      }
    }
  }

  lemma SameChoice(s: Plugin, s1: Plugin, id: string)
    requires s1 == s.(pins := s1.pins)
    ensures ReseedRefused(s1, id) == ReseedRefused(s, id) && Clear(s1) == Clear(s)
  {
    hide Labels.Candidates, NoFile;
  }

  // Without an id there is no label, and without a label no candidate.
  lemma Named(s: Plugin, id: string)
    requires KnownRows(s) && CandidatesFor(s, id) != []
    ensures id != "" && id in s.catalog
  {
    Labels.NothingToTry();
  }

  // Several files left: the item has no CID of its own, so no row waited for the one taken out.
  lemma PartialUnpin(s: Plugin, p: Pins, cid: string)
    requires OwnedBut(s.(pins := p), OwnerOf(s.pins, cid)) && Owned(s) && Taken(s.pins, p, cid)
    requires OwnerOf(s.pins, cid) in s.pins.remaining && s.pins.remaining[OwnerOf(s.pins, cid)] > 1
    ensures Owned(s.(pins := p))
  {
    hide Tidy, Apart;
    var r, id := s.(pins := p), OwnerOf(s.pins, cid);
    TasksFrame(s, r);
    if id in r.rows && r.rows[id].state == Mirroring {
      assert HasOwner(s, id);
      assert s.catalog[id].cid == "";
    }
  }

  lemma TakesOne(p: Pins, cid: string)
    ensures Taken(p, TakeUnpin(p, cid), cid)
  {
  }

  lemma TakesCounter(p: Pins, p': Pins, cid: string, remaining: map<string, int>)
    requires Taken(p, p', cid)
    requires forall id | id in remaining :: id in p'.remaining && remaining[id] <= p'.remaining[id]
    ensures Taken(p, p'.(remaining := remaining), cid)
  {
  }

  lemma UnpinTakes(s: Plugin, cid: string, ok: bool)
    requires cid in s.pins.unpinning
    ensures Taken(s.pins, UnpinFinished(s, cid, ok).pins, cid)
  {
    hide SetState, SetStored, OwnerOf, Taken, TakeUnpin;
    TakesOne(s.pins, cid);
    TakesCounter(s.pins, TakeUnpin(s.pins, cid), cid, UnpinFinished(s, cid, ok).pins.remaining);
  }

  lemma UnpinOwned(s: Plugin, cid: string, ok: bool)
    requires Owned(s)
    ensures Owned(UnpinFinished(s, cid, ok))
  {
    hide Owned, OwnedBut, OwnerOf, Apart, Taken;
    if cid in s.pins.unpinning {
      var id, r := OwnerOf(s.pins, cid), UnpinFinished(s, cid, ok);
      UnpinTakes(s, cid, ok);
      MappingTaken(s, r.pins, cid);
      var s1 := s.(pins := r.pins);
      if id == "" {
        NoRowEmpty(s1, id);
      } else if !ok {
        SettledBut(s1, r.rows, id, Failed);
      } else if FilesLeft(TakeUnpin(s.pins, cid), id) {
        PartialUnpin(s, r.pins, cid);
      } else {
        SettledBut(s1, r.rows, id, Available);
      }
    }
  }

  lemma NoRowEmpty(s: Plugin, id: string)
    requires OwnedBut(s, id) && Apart(s) && id == ""
    ensures Owned(s)
  {
    hide Tidy, Apart, Booked, HasOwner;
  }

  // ----- commands -----

  lemma StartPinOwned(s: Plugin, id: string, cid: string)
    requires Owned(s) && id in s.rows && s.catalog[id].cid == cid != "" && cid !in s.pins.cidToItem
    ensures Owned(StartPin(s, id, cid))
  {
    hide Tidy, Apart;
    var r := StartPin(s, id, cid);
    TasksFrame(s, r);
    forall x | x in r.rows && r.rows[x].state == Mirroring ensures HasOwner(r, x) {
      if x != id {
        assert HasOwner(s, x);
      }
    }
  }

  lemma StartIaOwned(s: Plugin, id: string, iaId: string)
    requires Owned(s) && s.ia.item == "" && s.reseed.item == "" && id != ""
    ensures Owned(StartIa(s, id, iaId))
  {
    hide WaitsForPin, Booked;
    var r := StartIa(s, id, iaId);
    assert forall t | t in r.downloads :: !r.downloads[t].CandidateTask?;
    forall x | x in r.rows && r.rows[x].state == Mirroring ensures HasOwner(r, x) {
      assert x != id ==> HasOwner(s, x);
    }
  }

  lemma MirrorOwned(s: Plugin, id: string)
    requires Owned(s)
    ensures Owned(MirrorItem(s, id))
  {
    hide Owned, StartIa, StartPin;
    if MirrorCode(s, id) == Done {
      Keys(s);
      if FromArchive(SourceOf(s, id).cid) {
        StartIaOwned(s, id, ArchiveId(SourceOf(s, id)));
      } else {
        StartPinOwned(s, id, SourceOf(s, id).cid);
      }
    }
  }

  lemma Keys(s: Plugin)
    requires Owned(s)
    ensures KnownRows(s)
  {
  }

  lemma {:induction false} StartUnpinsBooks(p: Pins, id: string, cids: seq<string>)
    ensures var r := StartUnpins(p, id, cids);
            && r.remaining == p.remaining && r.pinning == p.pinning
            && (forall c :: c in r.cidToItem <==> c in p.cidToItem || c in cids)
            && (forall c | c in p.cidToItem && c !in cids :: r.cidToItem[c] == p.cidToItem[c])
            && (forall c | c in cids || c in p.unpinning :: c in r.unpinning)
  {
    if cids != [] {
      StartUnpinsBooks(p, id, cids[..|cids| - 1]);
      assert cids == cids[..|cids| - 1] + [cids[|cids| - 1]];
    }
  }

  lemma UnmirrorOwned(s: Plugin, id: string)
    requires Owned(s)
    ensures Owned(UnmirrorItem(s, id))
  {
    hide StartUnpins, Tidy, Apart;
    if UnmirrorCode(s, id) == Done {
      var r, cids := UnmirrorItem(s, id), StoredBy(s, id);
      var p := s.pins.(remaining := s.pins.remaining[id := |cids|]);
      StartUnpinsBooks(p, id, cids);
      TasksFrame(s, r);
      forall x | x in r.rows && r.rows[x].state == Mirroring ensures HasOwner(r, x) {
        assert HasOwner(s, x);
        if WaitsForPin(s.catalog, s.pins, x) {
          assert s.catalog[x].cid in s.pins.cidToItem && s.catalog[x].cid !in cids;
        }
      }
    }
  }

  // Fewer rows, or new ones that nobody works on yet.
  lemma RowsChanged(s: Plugin, rows: Rows)
    requires Owned(s) && "" !in rows && rows.Keys <= s.catalog.Keys
    requires forall x | x in rows && rows[x].state == Mirroring :: x in s.rows && s.rows[x].state == Mirroring
    ensures Owned(s.(rows := rows))
  {
    hide WaitsForPin, Booked, Tidy, Apart;
    var r := s.(rows := rows);
    TasksFrame(s, r);
    forall x | x in r.rows && r.rows[x].state == Mirroring ensures HasOwner(r, x) {
      assert HasOwner(s, x);
    }
  }

  lemma QueueChanged(s: Plugin, queue: seq<string>, storage: Storage.Readiness)
    requires Owned(s)
    ensures Owned(s.(queue := queue, storage := storage))
  {
    hide Tidy, Apart, Listed;
    var r := s.(queue := queue, storage := storage);
    TasksFrame(s, r);
    RowsFrame(s, r);
  }

  lemma DrainOwned(s: Plugin)
    requires Owned(s)
    ensures Owned(DrainAutoQueue(s))
  {
    hide Owned, MirrorItem;
    if Idle(s) {
      var n := Skipped(s.rows, s.queue);
      QueueChanged(s, [], s.storage);
      if n < |s.queue| {
        QueueChanged(s, s.queue[n + 1..], s.storage);
        MirrorOwned(s.(queue := s.queue[n + 1..]), s.queue[n]);
      }
    }
  }

  lemma AutoOnOwned(s: Plugin, listing: seq<string>)
    requires Owned(s)
    ensures Owned(AutoPreserveOn(s, listing))
  {
    hide Owned, DrainAutoQueue, Wanted;
    var queue := EnqueueAll(s.queue, Choose(listing, id => Wanted(s, id)));
    QueueChanged(s, queue, s.storage);
    DrainOwned(s.(queue := queue));
  }

  lemma DiscoverOwned(s: Plugin, autoOn: bool, ids: seq<string>)
    requires Owned(s)
    ensures Owned(Discovered(s, autoOn, ids))
  {
    hide Owned, DrainAutoQueue, WithinCap;
    Keys(s);
    var s1 := WithRows(s, ids);
    RowsChanged(s, s1.rows);
    var queue := if autoOn then EnqueueAll(s1.queue, Choose(ids, id => id in s1.rows && WithinCap(s1, id))) else s1.queue;
    QueueChanged(s1, queue, s1.storage);
    DrainOwned(s1.(queue := queue));
  }

  // A process that starts owns what it mirrors, whatever rows its state file holds.
  lemma BootOwned(catalog: Catalog, saved: Rows)
    ensures Owned(Boot(catalog, saved))
  {
  }

  lemma CommandOwned(s: Plugin, e: Event)
    requires Owned(s) && !e.Abort? && !e.PinDone?
    ensures Owned(Step(s, e))
  {
    hide Owned, MirrorItem, UnmirrorItem, AutoPreserveOn, Discovered, DrainAutoQueue, UnpinFinished, Boot, DownloadReply,
      DownloadProgress, UploadFinished;
    Keys(s);
    match e
    case Mirror(id) => MirrorOwned(s, id);
    case Unmirror(id) => UnmirrorOwned(s, id);
    case RemoveRow(id) => RowsChanged(s, s.rows - {id});
    case RemoveAll =>
      RowsChanged(s, map[]);
      QueueChanged(s.(rows := map[]), [], s.storage);
    case Unfollow(channelId) => RowsChanged(s, UnfollowChannel(s, channelId).rows);
    case AutoOn(listing) => AutoOnOwned(s, listing);
    case Discover(autoOn, ids) => DiscoverOwned(s, autoOn, ids);
    case HealthTick => DrainOwned(s);
    case StorageState(storage) => QueueChanged(s, s.queue, storage);
    case Reply(token, ok, body, content, accepted) => ReplyOwned(s, token, ok, body, content, accepted);
    case Progress(token, recv, size) => ProgressOwned(s, token, recv, size);
    case UploadDone(ok, cid) => UploadDoneOwned(s, ok, cid);
    case UnpinDone(cid, ok) => UnpinOwned(s, cid, ok);
    case Restart(loaded) => BootOwned(s.catalog, loaded);
  }

  // A cancellation leaves the candidate download where it is.
  lemma AbortTasks(s: Plugin, id: string)
    requires Owned(s)
    ensures var r := AbortPreserve(s, id);
            Tidy(r) && (Apart(r) <==> KeepsOwners(s, Abort(id)))
  {
    hide Listed, WithoutId;
    var r := AbortPreserve(s, id);
    assert forall t | t in r.downloads :: t in s.downloads && r.downloads[t] == s.downloads[t];
    assert forall t | t in s.downloads && s.downloads[t].CandidateTask? :: t in r.downloads;
    assert HasCandidate(r) == HasCandidate(s);
  }

  lemma AbortRows(s: Plugin, id: string)
    requires Owned(s)
    ensures Listed(AbortPreserve(s, id))
  {
    hide Tidy, Apart, WaitsForPin, Booked, WithoutId;
    var r := AbortPreserve(s, id);
    forall x | x in r.rows && r.rows[x].state == Mirroring ensures HasOwner(r, x) {
      assert HasOwner(s, x);
    }
  }

  // ----- every step and every run -----

  // From a machine whose rows are owned, a step keeps it so if and only if it starts no reseed and cancels no
  // item where an upload could complete a reseed that is still downloading.
  lemma StepOwned(s: Plugin, e: Event)
    requires Owned(s)
    ensures Owned(Step(s, e)) <==> KeepsOwners(s, e)
  {
    hide Tidy, Apart, Listed, AbortPreserve, PinFinished, Clear, HasCandidate, ReseedRefused;
    if e.Abort? {
      AbortTasks(s, e.id);
      AbortRows(s, e.id);
    } else if e.PinDone? {
      PinOwned(s, e.cid, e.ok);
    } else {
      hide Owned, Step;
      CommandOwned(s, e);
    }
  }

  lemma OwnedThroughout(s: Plugin, events: seq<Event>)
    requires Owned(s)
    ensures Throughout(s, events, Owned) <==> EachStep(s, events, KeepsOwners)
  {
    hide Owned, KeepsOwners, Step, Throughout, EachStep, RunFrom;
    forall p, e | Owned(p) ensures Owned(Step(p, e)) <==> KeepsOwners(p, e) {
      StepOwned(p, e);
    }
    KeptIffAllowed(s, events, Owned, KeepsOwners);
  }

  // A mirroring row is the running item, the running reseed, or in the books of the pins.
  predicate MirroringAccounted(r: Plugin) {
    forall id | id in r.rows && r.rows[id].state == Mirroring ::
      id == r.ia.item || id == r.reseed.item || id in r.pins.cidToItem.Values
  }

  lemma OwnersNamed(r: Plugin)
    requires Owned(r)
    ensures MirroringAccounted(r)
  {
    hide Tidy, Apart, Booked, KnownRows;
    forall id | id in r.rows && r.rows[id].state == Mirroring
      ensures id == r.ia.item || id == r.reseed.item || id in r.pins.cidToItem.Values
    {
      assert HasOwner(r, id);
    }
  }

  lemma MirroringIsOwned(s: Plugin, events: seq<Event>)
    requires Owned(s) && EachStep(s, events, KeepsOwners)
    ensures MirroringAccounted(RunFrom(s, events))
  {
    hide Owned, KeepsOwners, Step, Throughout, EachStep, RunFrom;
    OwnedThroughout(s, events);
    AtTheEnd(s, events, Owned);
    OwnersNamed(RunFrom(s, events));
  }
}
