/** The preserve machine as the program runs it (src/plugin/ArchivePlugin.cpp): an object whose handlers
    update the run, the reseed, the pins, the queue and the rows in place. Each method is proved against the
    function of the same handler in PreserveSteps. The program's fields m_ia…, m_reseed… and the tables of
    pins and unpins are kept together in one record each. */
module ArchivePlugins {
  import opened Basics
  import opened Inscriptions
  import opened IaFiles
  import opened PreserveSteps
  import Labels
  import Ownership = PreserveOwnership
  import Steps = PreserveSteps
  import Storage = StorageClients

  // One more chosen id appended to the queue, as the loops do it.
  lemma EnqueueOneMore(queue: seq<string>, ids: seq<string>, wanted: string -> bool, id: string)
    ensures EnqueueAll(queue, Choose(ids + [id], wanted)) ==
            if wanted(id) then Enqueue(EnqueueAll(queue, Choose(ids, wanted)), id)
            else EnqueueAll(queue, Choose(ids, wanted))
  {
    assert (ids + [id])[..|ids|] == ids;
    var chosen := Choose(ids, wanted);
    assert (chosen + [id])[..|chosen|] == chosen;
    assert chosen + [] == chosen;
  }

  lemma NothingEnqueued(queue: seq<string>, wanted: string -> bool)
    ensures forall ids: seq<string> | ids == [] :: EnqueueAll(queue, Choose(ids, wanted)) == queue
  {
  }

  lemma {:induction false} SkippedFrom(rows: Rows, queue: seq<string>, n: nat)
    requires n <= |queue| && forall i | 0 <= i < n :: !Startable(rows, queue[i])
    ensures Skipped(rows, queue) == n + Skipped(rows, queue[n..])
  {
    if n > 0 {
      assert queue[1..][n - 1..] == queue[n..];
      forall i | 0 <= i < n - 1 ensures !Startable(rows, queue[1..][i]) {
        assert queue[1..][i] == queue[i + 1];
      }
      SkippedFrom(rows, queue[1..], n - 1);
    } else {
      assert queue[0..] == queue;
    }
  }

  // What a handler keeps of the ownership of mirroring rows.
  lemma Keeps(s: Plugin, e: Event)
    ensures Ownership.Owned(s) && !e.Abort? && !e.PinDone? ==> Ownership.Owned(Step(s, e))
    ensures Ownership.Owned(s) ==> (Ownership.Owned(Step(s, e)) <==> Ownership.KeepsOwners(s, e))
  {
    hide Ownership.Owned, Step;
    if Ownership.Owned(s) {
      Ownership.StepOwned(s, e);
    }
  }

  class ArchivePlugin {
    const catalog: Catalog
    var rows: Rows
    var storageState: Storage.Readiness
    var uploading: bool
    var ia: IaRun
    var reseed: Reseed
    var pins: Pins
    var downloads: map<nat, Task>
    var nextDownload: nat
    var autoQueue: seq<string>
    ghost var completed: seq<Completed>
    ghost var settled: seq<Settled>
    ghost var cargo: string

    ghost function Model(): Plugin
      reads this
    {
      Plugin(catalog, rows, storageState, uploading, ia, reseed, pins, downloads, nextDownload, autoQueue, completed,
             settled, cargo)
    }

    // Every mirroring row has somebody at work on it, and no upload can take the reseed's end from its download.
    ghost predicate Valid()
      reads this
    {
      Ownership.Owned(Model())
    }

    // A start of the process over the rows the state file holds.
    constructor (catalog: Catalog, saved: Rows)
      ensures this.catalog == catalog && Model() == Boot(catalog, saved) && Valid()
    {
      Ownership.BootOwned(catalog, saved);
      this.catalog := catalog;
      rows := map id | id in saved && id in catalog && id != "" :: ResetRow(saved[id]);
      storageState, uploading := Storage.Offline, false;
      ia, reseed, pins := NO_RUN, NO_RESEED, NO_PINS;
      downloads, nextDownload, autoQueue, completed, settled, cargo := map[], 1, [], [], [], "";
    }

    // ----- rows -----

    method SetItemState(id: string, state: ItemState)
      modifies this`rows
      ensures rows == SetState(old(rows), id, state)
    {
      if id in rows {
        var progress := if state == Mirroring then rows[id].progress else 0;
        rows := rows[id := rows[id].(state := state, progress := progress)];
      }
    }

    method SetItemMirroring(id: string, progress: int)
      modifies this`rows
      ensures rows == SetMirroring(old(rows), id, progress)
    {
      if id in rows {
        var shown := if progress >= 0 then progress else rows[id].progress;
        rows := rows[id := rows[id].(state := Mirroring, progress := shown)];
      }
    }

    method SetItemStoredCids(id: string, cids: seq<string>)
      modifies this`rows
      ensures rows == SetStored(old(rows), id, cids)
    {
      if id in rows {
        rows := rows[id := rows[id].(storedCids := cids)];
      }
    }

    // ----- the item preserve -----

    method IaFail()
      modifies this
      ensures Model() == Steps.IaFail(old(Model()))
    {
      var itemId := ia.item;
      ia := ia.(item := "", files := [], stored := []);
      SetItemState(itemId, Failed);
    }

    method IaPending()
      modifies this
      ensures Model() == Steps.IaPending(old(Model()))
    {
      var itemId := ia.item;
      ia := ia.(item := "", files := [], stored := []);
      SetItemState(itemId, Pending);
      if itemId !in autoQueue {
        autoQueue := autoQueue + [itemId];
      }
    }

    method Download(task: Task) returns (token: nat)
      modifies this`downloads, this`nextDownload
      ensures Model() == StartDownload(old(Model()), task) && token == old(nextDownload)
    {
      token := nextDownload;
      downloads := downloads[token := task];
      nextDownload := nextDownload + 1;
    }

    method IaNextFile()
      modifies this
      ensures Model() == Steps.IaNextFile(old(Model()))
    {
      if ia.idx >= |ia.files| {
        var itemId, cids := ia.item, ia.stored;
        completed := completed + [RunRecord(ia)];
        ia := ia.(item := "", files := [], stored := []);
        SetItemStoredCids(itemId, cids);
        SetItemState(itemId, Mirrored);
        return;
      }
      var reply := Download(FileTask(ia.iaId, ia.files[ia.idx], ia.item));
      ia := ia.(tracked := reply, recv := 0, announced := 0);
    }

    method StartIaPreserve(itemId: string, iaId: string)
      modifies this
      ensures Model() == StartIa(old(Model()), itemId, iaId)
    {
      ia := IaRun(itemId, iaId, [], 0, 0, 0, 0, [], ia.tracked, 0, 0, []);
      SetItemMirroring(itemId, 0);
      var reply := Download(ManifestTask(iaId));
      ia := ia.(tracked := reply);
    }

    method TotalSize(files: seq<IaFileEntry>) returns (total: int)
      ensures total == SumSizes(files)
    {
      total := 0;
      for i := 0 to |files|
        invariant total == SumSizes(files[..i])
      {
        assert files[..i + 1][..i] == files[..i];
        total := total + files[i].size;
      }
      assert files[..|files|] == files;
    }

    method OnManifest(ok: bool, body: seq<Token>)
      modifies this
      ensures Model() == ManifestReply(old(Model()), ok, body)
    {
      if ia.item == "" {
        return;
      }
      if !ok {
        IaFail();
        return;
      }
      var files := ParseIaFilesXml(body);
      if files == [] {
        IaFail();
        return;
      }
      var total := TotalSize(files);
      ia := ia.(files := files, done := 0, total := total);
      IaNextFile();
    }

    method OnFile(entry: IaFileEntry, ok: bool, content: Option<Digests>, accepted: bool)
      modifies this
      ensures Model() == FileReply(old(Model()), entry, ok, content, accepted)
    {
      if ia.item == "" {
        return;
      }
      if !ok {
        IaFail();
        return;
      }
      var verdict := VerifyIaFile(content, entry);
      match verdict {
        case Mismatch =>
          IaFail();
          return;
        case Unverified => ia := ia.(unverified := ia.unverified + 1);
        case Verified =>
      }
      ia := ia.(acts := ia.acts + [Fetched(entry, content), Sent(entry)]);
      Upload(accepted, "");
    }

    // Handing a file to the storage client, which reports a refusal before the call returns.
    method Upload(accepted: bool, ghost forItem: string)
      modifies this
      ensures Model() == StartUpload(old(Model()), accepted, forItem)
    {
      if uploading || !accepted {
        OnUploadFinished(false, "");
        return;
      }
      uploading := true;
      cargo := forItem;
    }

    method TakeStored(cid: string)
      modifies this`ia
      ensures ia == FileStored(old(ia), cid)
    {
      if cid != "" {
        ia := ia.(stored := ia.stored + [cid]);
      }
      ia := ia.(acts := ia.acts + [Kept(cid)]);
      if ia.idx < |ia.files| {
        ia := ia.(done := ia.done + ia.files[ia.idx].size);
      }
      ia := ia.(idx := ia.idx + 1);
    }

    method OnUploadFinished(upOk: bool, cid: string)
      modifies this
      ensures Model() == UploadFinished(old(Model()), upOk, cid)
    {
      if ia.item != "" {
        if !upOk {
          IaPending();
          return;
        }
        TakeStored(cid);
        IaNextFile();
        return;
      }
      if reseed.item == "" {
        return;
      }
      var itemId := reseed.item;
      reseed := reseed.(item := "");
      if !upOk {
        SetItemState(itemId, Failed);
        return;
      }
      SetItemState(itemId, Mirrored);
      settled := settled + [Settled(itemId, cargo == itemId)];
      reseed := reseed.(cid := "");
    }

    // The storageUploadDone event as the storage client passes it on.
    method OnUploadDone(ok: bool, cid: string)
      modifies this
      ensures Model() == Step(old(Model()), UploadDone(ok, cid))
      ensures old(Valid()) ==> Valid()
    {
      hide Ownership.Owned;
      Keeps(Model(), UploadDone(ok, cid));
      if uploading {
        uploading := false;
        OnUploadFinished(ok, cid);
      }
    }

    method OnFileProgress(itemId: string, received: int, size: int)
      modifies this
      ensures Model() == FileProgress(old(Model()), itemId, received, size)
    {
      if ia.item != itemId || |ia.files| == 0 {
        return;
      }
      var pct;
      if ia.total > 0 {
        pct := Quotient((ia.done + received) * 100, ia.total);
      } else {
        var filePct := if size > 0 then Quotient(received * 100, size) else 0;
        pct := Quotient(ia.idx * 100 + filePct, |ia.files|);
      }
      ia := ia.(recv := received, announced := size);
      SetItemMirroring(itemId, pct);
    }

    // ----- the reseed -----

    method TryReseedCandidate(itemId: string)
      requires reseed.candidates != []
      modifies this
      ensures Model() == TryCandidate(old(Model()), itemId)
    {
      var source := Labels.Decode(reseed.candidates[0]);
      reseed := reseed.(candidates := reseed.candidates[1..], tried := reseed.tried + 1);
      var _ := Download(CandidateTask(itemId, source));
    }

    method StartReseed(itemId: string, cid: string)
      modifies this
      ensures Model() == Steps.StartReseed(old(Model()), itemId, cid)
    {
      var inscribedCid, title := "", "";
      if itemId in rows && itemId in catalog {
        inscribedCid, title := catalog[itemId].cid, catalog[itemId].title;
      }
      var candidates := Labels.DeriveIaCandidates(inscribedCid, title);
      if candidates == [] || NoFile(candidates[0]) {
        SetItemState(itemId, Failed);
        return;
      }
      if reseed.item != "" {
        SetItemState(itemId, Failed);
        return;
      }
      reseed := Reseed(itemId, cid, candidates, 0);
      TryReseedCandidate(itemId);
    }

    method OnCandidate(itemId: string, ok: bool, accepted: bool)
      modifies this
      ensures Model() == CandidateReply(old(Model()), itemId, ok, accepted)
    {
      if !ok {
        if reseed.candidates != [] {
          TryReseedCandidate(itemId);
          return;
        }
        reseed := reseed.(item := "");
        SetItemState(itemId, Failed);
        return;
      }
      Upload(accepted, itemId);
    }

    // A finished download runs the handler that was attached to it.
    method OnReply(token: nat, ok: bool, body: seq<Token>, content: Option<Digests>, accepted: bool)
      modifies this
      ensures Model() == Step(old(Model()), Reply(token, ok, body, content, accepted))
      ensures old(Valid()) ==> Valid()
    {
      hide Ownership.Owned, ManifestReply, FileReply, CandidateReply;
      Keeps(Model(), Reply(token, ok, body, content, accepted));
      if token !in downloads {
        return;
      }
      var task := downloads[token];
      downloads := downloads - {token};
      match task {
        case ManifestTask(_) => OnManifest(ok, body);
        case FileTask(_, entry, _) => OnFile(entry, ok, content, accepted);
        case CandidateTask(item, _) => OnCandidate(item, ok, accepted);
      }
    }

    method OnProgress(token: nat, received: int, size: int)
      modifies this
      ensures Model() == Step(old(Model()), Progress(token, received, size))
      ensures old(Valid()) ==> Valid()
    {
      hide Ownership.Owned;
      Keeps(Model(), Progress(token, received, size));
      if token !in downloads {
        return;
      }
      match downloads[token] {
        case ManifestTask(_) =>
        case FileTask(_, _, item) => OnFileProgress(item, received, size);
        case CandidateTask(item, _) => SetItemMirroring(item, FilePercent(received, size));
      }
    }

    // ----- commands -----

    method MirrorItem(itemId: string) returns (code: Code)
      modifies this
      ensures Model() == Steps.MirrorItem(old(Model()), itemId)
      ensures code == MirrorCode(old(Model()), itemId)
      ensures old(Valid()) ==> Valid()
    {
      hide Ownership.Owned;
      Keeps(Model(), Mirror(itemId));
      if storageState != Storage.Ready {
        return if storageState == Storage.Starting then StorageStarting else StorageOffline;
      }
      var source := Source("", "", "", "", 0);
      if itemId in rows && itemId in catalog {
        source := catalog[itemId];
      }
      if source.cid == "" || StartsWith(source.cid, "ia:") {
        var iaId := if StartsWith(source.cid, "ia:") then source.cid[3..] else "";
        if iaId == "" {
          iaId := source.iaId;
        }
        if iaId == "" {
          return UnknownItem;
        }
        if ia.item != "" || reseed.item != "" {
          return StorageBusy;
        }
        StartIaPreserve(itemId, iaId);
        return Done;
      }
      if source.cid in pins.cidToItem {
        return StorageBusy;
      }
      pins := pins.(cidToItem := pins.cidToItem[source.cid := itemId]);
      SetItemMirroring(itemId, 0);
      pins := pins.(pinning := pins.pinning + {source.cid});
      return Done;
    }

    method UnmirrorItem(itemId: string) returns (code: Code)
      modifies this
      ensures Model() == Steps.UnmirrorItem(old(Model()), itemId)
      ensures code == UnmirrorCode(old(Model()), itemId)
      ensures old(Valid()) ==> Valid()
    {
      hide Ownership.Owned;
      Keeps(Model(), Unmirror(itemId));
      if storageState != Storage.Ready {
        return if storageState == Storage.Starting then StorageStarting else StorageOffline;
      }
      var cids := [];
      if itemId in rows && itemId in catalog && catalog[itemId].cid != "" {
        cids := [catalog[itemId].cid];
      } else if itemId in rows {
        cids := rows[itemId].storedCids;
      }
      if cids == [] {
        return NothingStored;
      }
      var busy := AnyInFlight(cids);
      if busy {
        return StorageBusy;
      }
      pins := pins.(remaining := pins.remaining[itemId := |cids|]);
      Unpins(itemId, cids);
      return Done;
    }

    method AnyInFlight(cids: seq<string>) returns (busy: bool)
      ensures busy <==> exists c | c in cids :: c in pins.cidToItem
    {
      for i := 0 to |cids|
        invariant forall k | 0 <= k < i :: cids[k] !in pins.cidToItem
      {
        if cids[i] in pins.cidToItem {
          return true;
        }
      }
      return false;
    }

    // One unpin call per file, each with its owner noted first.
    method Unpins(itemId: string, cids: seq<string>)
      modifies this`pins
      ensures pins == StartUnpins(old(pins), itemId, cids)
    {
      for i := 0 to |cids|
        invariant pins == StartUnpins(old(pins), itemId, cids[..i])
      {
        assert cids[..i + 1][..i] == cids[..i];
        pins := pins.(cidToItem := pins.cidToItem[cids[i] := itemId]);
        pins := pins.(unpinning := pins.unpinning + multiset{cids[i]});
      }
      assert cids[..|cids|] == cids;
    }

    method AbortPreserve(itemId: string)
      modifies this
      ensures Model() == Steps.AbortPreserve(old(Model()), itemId)
      ensures old(Valid()) ==> (Valid() <==> Ownership.KeepsOwners(old(Model()), Abort(itemId)))
    {
      hide Ownership.Owned, Ownership.KeepsOwners, SetState, WithoutId;
      Keeps(Model(), Abort(itemId));
      autoQueue := WithoutId(autoQueue, itemId);
      if ia.item == itemId {
        ia := ia.(item := "", files := [], total := 0, done := 0, stored := []);
        downloads := downloads - {ia.tracked};
      }
      SetItemState(itemId, Available);
    }

    method RemoveItem(itemId: string)
      modifies this`rows
      ensures Model() == Steps.RemoveItem(old(Model()), itemId)
      ensures old(Valid()) ==> Valid()
    {
      hide Ownership.Owned;
      Keeps(Model(), RemoveRow(itemId));
      rows := rows - {itemId};
    }

    method RemoveAllItems()
      modifies this`rows, this`autoQueue
      ensures Model() == Steps.RemoveAllItems(old(Model()))
      ensures old(Valid()) ==> Valid()
    {
      hide Ownership.Owned;
      Keeps(Model(), Event.RemoveAll);
      rows := map[];
      autoQueue := [];
    }

    // ----- answers of the storage client -----

    method OnPinFinished(cid: string, pinOk: bool)
      requires cid in pins.pinning
      modifies this
      ensures Model() == Step(old(Model()), PinDone(cid, pinOk))
      ensures old(Valid()) ==> (Valid() <==> Ownership.KeepsOwners(old(Model()), PinDone(cid, pinOk)))
    {
      hide Ownership.Owned, Ownership.KeepsOwners;
      Keeps(Model(), PinDone(cid, pinOk));
      var itemId := if cid in pins.cidToItem then pins.cidToItem[cid] else "";
      pins := pins.(cidToItem := pins.cidToItem - {cid}, pinning := pins.pinning - {cid});
      if pinOk {
        SetItemState(itemId, Mirrored);
        return;
      }
      StartReseed(itemId, cid);
    }

    method OnUnpinFinished(cid: string, unpinOk: bool)
      requires cid in pins.unpinning
      modifies this
      ensures Model() == Step(old(Model()), UnpinDone(cid, unpinOk))
      ensures old(Valid()) ==> Valid()
    {
      hide Ownership.Owned, SetState, SetStored;
      Keeps(Model(), UnpinDone(cid, unpinOk));
      var itemId := if cid in pins.cidToItem then pins.cidToItem[cid] else "";
      pins := pins.(cidToItem := pins.cidToItem - {cid}, unpinning := pins.unpinning - multiset{cid});
      if itemId == "" {
        return;
      }
      if !unpinOk {
        pins := pins.(remaining := pins.remaining - {itemId});
        SetItemState(itemId, Failed);
        return;
      }
      if itemId in pins.remaining && pins.remaining[itemId] - 1 > 0 {
        pins := pins.(remaining := pins.remaining[itemId := pins.remaining[itemId] - 1]);
        return;
      }
      pins := pins.(remaining := pins.remaining - {itemId});
      SetItemStoredCids(itemId, []);
      SetItemState(itemId, Available);
    }

    // ----- the automatic queue -----

    method DrainAutoQueue()
      modifies this
      ensures Model() == Steps.DrainAutoQueue(old(Model()))
    {
      if ia.item != "" || reseed.item != "" {
        return;
      }
      if storageState != Storage.Ready {
        return;
      }
      ghost var n := 0;
      while autoQueue != []
        invariant n <= |old(autoQueue)| && Model() == old(Model()).(queue := old(autoQueue)[n..])
        invariant forall i | 0 <= i < n :: !Startable(old(rows), old(autoQueue)[i])
        decreases |autoQueue|
      {
        var id := autoQueue[0];
        autoQueue := autoQueue[1..];
        if !Startable(rows, id) {
          n := n + 1;
          continue;
        }
        SkippedFrom(old(rows), old(autoQueue), n);
        var _ := MirrorItem(id);
        return;
      }
      SkippedFrom(old(rows), old(autoQueue), n);
    }

    method WantsItem(id: string) returns (wanted: bool)
      ensures wanted == Wanted(Model(), id)
    {
      if id !in rows || (rows[id].state != Available && rows[id].state != Failed) {
        return false;
      }
      var fits := FitsCap(id);
      return fits && id != "";
    }

    method FitsCap(id: string) returns (fits: bool)
      requires id in rows
      ensures fits == WithinCap(Model(), id)
    {
      var size := if id in catalog then catalog[id].size else 0;
      return size <= AUTO_PRESERVE_MAX_BYTES;
    }

    method EnqueueWanted(listing: seq<string>) returns (queue: seq<string>)
      ensures var s := Model(); queue == EnqueueAll(autoQueue, Choose(listing, id => Wanted(s, id)))
    {
      hide EnqueueAll, Choose, Wanted, Enqueue;
      ghost var s := Model();
      queue := autoQueue;
      NothingEnqueued(autoQueue, id => Wanted(s, id));
      for i := 0 to |listing|
        invariant queue == EnqueueAll(autoQueue, Choose(listing[..i], id => Wanted(s, id)))
      {
        assert listing[..i + 1] == listing[..i] + [listing[i]];
        EnqueueOneMore(autoQueue, listing[..i], id => Wanted(s, id), listing[i]);
        var wanted := WantsItem(listing[i]);
        if wanted {
          queue := Enqueue(queue, listing[i]);
        }
      }
      assert listing[..|listing|] == listing;
    }

    method EnqueueFitting(ids: seq<string>) returns (queue: seq<string>)
      ensures var s := Model(); queue == EnqueueAll(autoQueue, Choose(ids, id => id in s.rows && WithinCap(s, id)))
    {
      hide EnqueueAll, Choose, WithinCap, Enqueue;
      ghost var s := Model();
      queue := autoQueue;
      NothingEnqueued(autoQueue, id => id in s.rows && WithinCap(s, id));
      for i := 0 to |ids|
        invariant queue == EnqueueAll(autoQueue, Choose(ids[..i], id => id in s.rows && WithinCap(s, id)))
      {
        assert ids[..i + 1] == ids[..i] + [ids[i]];
        EnqueueOneMore(autoQueue, ids[..i], id => id in s.rows && WithinCap(s, id), ids[i]);
        if ids[i] in rows {
          var fits := FitsCap(ids[i]);
          if fits {
            queue := Enqueue(queue, ids[i]);
          }
        }
      }
      assert ids[..|ids|] == ids;
    }

    method SetAutoPreserve(listing: seq<string>)
      modifies this
      ensures Model() == Step(old(Model()), AutoOn(listing))
      ensures old(Valid()) ==> Valid()
    {
      hide EnqueueAll, Choose, Wanted, Steps.DrainAutoQueue, Ownership.Owned;
      Keeps(Model(), AutoOn(listing));
      autoQueue := EnqueueWanted(listing);
      DrainAutoQueue();
    }

    // The scan added rows, then told of them.
    method OnItemsDiscovered(autoOn: bool, ids: seq<string>)
      modifies this
      ensures Model() == Step(old(Model()), Discover(autoOn, ids))
      ensures old(Valid()) ==> Valid()
    {
      hide EnqueueAll, Choose, WithinCap, Steps.DrainAutoQueue, Ownership.Owned;
      Keeps(Model(), Discover(autoOn, ids));
      rows := rows + map id | id in ids && id in catalog && id !in rows && id != "" :: Row(Available, 0, []);
      assert Model() == WithRows(old(Model()), ids);
      if autoOn {
        autoQueue := EnqueueFitting(ids);
      }
      DrainAutoQueue();
    }

    method PollGatewayHealth()
      modifies this
      ensures Model() == Step(old(Model()), HealthTick)
      ensures old(Valid()) ==> Valid()
    {
      hide Ownership.Owned;
      Keeps(Model(), HealthTick);
      DrainAutoQueue();
    }
  }
}
