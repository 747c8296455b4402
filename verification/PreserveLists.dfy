/** What comes into the list of rows and into the queue, what leaves them, and what a command answers. */
module PreserveLists {
  import opened Basics
  import opened Inscriptions
  import opened IaFiles
  import opened PreserveSteps
  import PreserveQueue
  import PreserveUnpins
  import Storage = StorageClients

  // ----- rows -----

  predicate TakesAway(s: Plugin, e: Event, id: string) {
    match e
    case RemoveRow(x) => x == id
    case RemoveAll => true
    case Unfollow(channelId) => id in s.catalog && s.catalog[id].channelId == channelId
    case Restart(loaded) => !(id in loaded && id in s.catalog && id != "")
    case _ => false
  }

  predicate Brings(s: Plugin, e: Event, id: string) {
    && id in s.catalog && id != ""
    && match e
       case Discover(_, ids) => id in ids
       case Restart(loaded) => id in loaded
       case _ => false
  }

  lemma RepliesKeepRows(s: Plugin, e: Event)
    requires e.Reply? || e.UploadDone? || e.PinDone? || e.UnpinDone? || e.Mirror? || e.Unmirror? || e.HealthTick?
    ensures Step(s, e).rows.Keys == s.rows.Keys
  {
    hide DownloadReply, UploadFinished, PinFinished, UnpinFinished, MirrorItem, UnmirrorItem, DrainAutoQueue;
    match e
    case Mirror(id) => PreserveUnpins.MirrorRows(s, id);
    case Unmirror(id) => PreserveUnpins.UnmirrorRows(s, id);
    case HealthTick => PreserveUnpins.DrainRows(s);
    case Reply(token, ok, body, content, accepted) => PreserveUnpins.ReplyRows(s, token, ok, body, content, accepted);
    case UploadDone(ok, cid) => PreserveUnpins.UploadRows(s.(uploading := false), ok, cid);
    case PinDone(cid, ok) => PreserveUnpins.PinRows(s, cid, ok);
    case UnpinDone(cid, ok) => PreserveUnpins.UnpinRows(s, cid, ok);
  }

  lemma DrainsKeepRows(s: Plugin, e: Event)
    requires e.AutoOn? || e.Discover?
    ensures Step(s, e).rows.Keys == if e.Discover? then WithRows(s, e.ids).rows.Keys else s.rows.Keys
  {
    hide DrainAutoQueue, EnqueueAll, Choose, WithinCap, Wanted;
    match e
    case AutoOn(listing) =>
      PreserveUnpins.DrainRows(s.(queue := EnqueueAll(s.queue, Choose(listing, x => Wanted(s, x)))));
    case Discover(autoOn, ids) =>
      var s1 := WithRows(s, ids);
      PreserveUnpins.DrainRows(
        s1.(queue := if autoOn then EnqueueAll(s1.queue, Choose(ids, x => x in s1.rows && WithinCap(s1, x))) else s1.queue));
  }

  // A row is there after a step exactly when it was there and not taken away, or the step discovers or loads it.
  lemma RowsComeAndGo(s: Plugin, e: Event, id: string)
    ensures id in Step(s, e).rows <==> (id in s.rows && !TakesAway(s, e, id)) || Brings(s, e, id)
  {
    hide DrainAutoQueue, Discovered, DownloadReply, UploadFinished, PinFinished, UnpinFinished, MirrorItem, UnmirrorItem,
      WithoutId, Percent, FilePercent, EnqueueAll, Choose;
    if e.AutoOn? || e.Discover? {
      hide Step;
      DrainsKeepRows(s, e);
    } else if e.Reply? || e.UploadDone? || e.PinDone? || e.UnpinDone? || e.Mirror? || e.Unmirror? || e.HealthTick? {
      hide Step;
      RepliesKeepRows(s, e);
    }
  }

  // A new row is available; a loaded one keeps its stored CIDs, and its state unless that was mirroring or failed.
  lemma RowsAsTheyCome(s: Plugin, e: Event, id: string)
    requires Brings(s, e, id) && (e.Discover? ==> id !in s.rows)
    ensures e.Discover? ==> var r := WithRows(s, e.ids); id in r.rows && r.rows[id] == Row(Available, 0, [])
    ensures e.Restart? ==>
              var r, row := Step(s, e), e.loaded[id];
              && id in r.rows && r.rows[id].storedCids == row.storedCids && r.rows[id].progress == 0
              && r.rows[id].state == if row.state == Mirroring || row.state == Failed then Available else row.state
  {
  }

  // ----- what changes a row -----

  // The row is as it was.
  predicate Kept(s: Plugin, r: Plugin, id: string) {
    id in s.rows && id in r.rows ==> r.rows[id] == s.rows[id]
  }

  // The drain took this item up.
  predicate Drained(s: Plugin, r: Plugin, id: string) {
    Idle(s) && Startable(s.rows, id) && (r.ia.item == id || PreserveQueue.PinStarted(r, id))
  }

  // Whose row an event may change: the item it names, the item or re-seed whose work it reports, the owner of the CID
  // it answers for, or the item a drain takes up.
  predicate Concerns(s: Plugin, e: Event, r: Plugin, id: string) {
    match e
    case Mirror(x) => x == id
    case Abort(x) => x == id
    case AutoOn(_) => Drained(s, r, id)
    case Discover(_, _) => Drained(s, r, id)
    case HealthTick => Drained(s, r, id)
    case Reply(token, _, _, _, _) => token in s.downloads && (id == s.ia.item || id == s.reseed.item || Fetches(s, token, id))
    case Progress(token, _, _) => Fetches(s, token, id)
    case UploadDone(_, _) => id == s.ia.item || (s.ia.item == "" && id == s.reseed.item)
    case PinDone(cid, _) => cid in s.pins.pinning && id == OwnerOf(s.pins, cid)
    case UnpinDone(cid, _) => cid in s.pins.unpinning && id == OwnerOf(s.pins, cid)
    case Restart(_) => true
    case _ => false
  }

  // The download is the item's.
  predicate Fetches(s: Plugin, token: nat, id: string) {
    token in s.downloads && !s.downloads[token].ManifestTask? && s.downloads[token].item == id
  }

  lemma UploadChanges(s: Plugin, ok: bool, cid: string, id: string)
    requires !Kept(s, UploadFinished(s, ok, cid), id)
    ensures id == s.ia.item || (s.ia.item == "" && id == s.reseed.item)
  {
    hide Enqueue;
  }

  lemma ReplyChanges(s: Plugin, token: nat, ok: bool, body: seq<Token>, content: Option<Digests>, accepted: bool, id: string)
    requires !Kept(s, DownloadReply(s, token, ok, body, content, accepted), id)
    ensures token in s.downloads && (id == s.ia.item || id == s.reseed.item || Fetches(s, token, id))
  {
    hide UploadFinished, Parsed, VerifyIaFile, SumSizes;
    var s1 := s.(downloads := s.downloads - {token});
    match s.downloads[token]
    case ManifestTask(_) =>
    case FileTask(_, entry, _) =>
      var s2 := s1.(ia := s1.ia.(unverified := s1.ia.unverified + (if VerifyIaFile(content, entry) == Unverified then 1 else 0),
                                 acts := s1.ia.acts + [Fetched(entry, content), Sent(entry)]));
      if !Kept(s2, UploadFinished(s2, false, ""), id) {
        UploadChanges(s2, false, "", id);
      }
    case CandidateTask(item, _) =>
      if !Kept(s1, UploadFinished(s1, false, ""), id) {
        UploadChanges(s1, false, "", id);
      }
  }

  lemma MirrorChanges(s: Plugin, x: string, id: string)
    requires !Kept(s, MirrorItem(s, x), id)
    ensures x == id && (MirrorItem(s, x).ia.item == id || PreserveQueue.PinStarted(MirrorItem(s, x), id))
  {
  }

  lemma DrainChanges(s: Plugin, id: string)
    requires !Kept(s, DrainAutoQueue(s), id)
    ensures Drained(s, DrainAutoQueue(s), id)
  {
    hide MirrorItem, PreserveQueue.PinStarted;
    var n := Skipped(s.rows, s.queue);
    MirrorChanges(s.(queue := s.queue[n + 1..]), s.queue[n], id);
    PreserveQueue.SkippedAre(s.rows, s.queue);
  }

  lemma DrainEventChanges(s: Plugin, e: Event, id: string)
    requires (e.AutoOn? || e.Discover? || e.HealthTick?) && id in s.rows && !Kept(s, Step(s, e), id)
    ensures Drained(s, Step(s, e), id)
  {
    hide DrainAutoQueue, EnqueueAll, Choose, WithinCap, Wanted, PreserveQueue.PinStarted;
    match e
    case HealthTick => DrainChanges(s, id);
    case AutoOn(listing) => DrainChanges(s.(queue := EnqueueAll(s.queue, Choose(listing, x => Wanted(s, x)))), id);
    case Discover(autoOn, ids) =>
      var s1 := WithRows(s, ids);
      DrainChanges(
        s1.(queue := if autoOn then EnqueueAll(s1.queue, Choose(ids, x => x in s1.rows && WithinCap(s1, x))) else s1.queue), id);
  }

  lemma AnswerChanges(s: Plugin, e: Event, id: string)
    requires (e.PinDone? || e.UnpinDone?) && !Kept(s, Step(s, e), id)
    ensures Concerns(s, e, Step(s, e), id)
  {
    hide ReseedRefused, CandidatesFor, FilesLeft, OwnerOf, TakeUnpin;
  }

  // A step changes the rows of those it concerns and no other.
  lemma RowsChangeOnlyIf(s: Plugin, e: Event, id: string)
    requires id in s.rows && id in Step(s, e).rows && Step(s, e).rows[id] != s.rows[id]
    ensures Concerns(s, e, Step(s, e), id)
  {
    hide DownloadReply, UploadFinished, DrainAutoQueue, Discovered, AutoPreserveOn, MirrorItem, WithoutId, Percent, FilePercent,
      PinFinished, UnpinFinished, UnmirrorItem, Drained;
    match e
    case Mirror(x) => MirrorChanges(s, x, id);
    case Unmirror(x) => PreserveUnpins.UnmirrorRows(s, x);
    case AutoOn(_) => DrainEventChanges(s, e, id);
    case Discover(_, _) => DrainEventChanges(s, e, id);
    case HealthTick => DrainEventChanges(s, e, id);
    case Reply(token, ok, body, content, accepted) => ReplyChanges(s, token, ok, body, content, accepted, id);
    case UploadDone(ok, cid) => UploadChanges(s.(uploading := false), ok, cid, id);
    case PinDone(_, _) => AnswerChanges(s, e, id);
    case UnpinDone(_, _) => AnswerChanges(s, e, id);
    case _ =>
  }

  // ----- the queue -----

  // Why an id may enter the queue: its run was sent back to wait, automatic preserving was turned on for its
  // channel, or it was just discovered while that was on - the last two within the ceiling.
  predicate Invited(s: Plugin, e: Event, id: string) {
    || ((e.Reply? || e.UploadDone?) && s.ia.item == id)
    || (e.AutoOn? && id in e.listing && Wanted(s, id))
    || (e.Discover? && e.autoOn && id in e.ids && id in WithRows(s, e.ids).rows && WithinCap(WithRows(s, e.ids), id))
  }

  lemma UploadQueues(s: Plugin, ok: bool, cid: string, id: string)
    requires id in UploadFinished(s, ok, cid).queue && id !in s.queue
    ensures s.ia.item == id
  {
    hide SetState, SetStored;
  }

  lemma ReplyQueues(s: Plugin, token: nat, ok: bool, body: seq<Token>, content: Option<Digests>, accepted: bool, id: string)
    requires id in DownloadReply(s, token, ok, body, content, accepted).queue && id !in s.queue
    ensures s.ia.item == id
  {
    hide UploadFinished, SetState, SetStored, Parsed, VerifyIaFile, SumSizes;
    var s1 := s.(downloads := s.downloads - {token});
    match s.downloads[token]
    case ManifestTask(_) =>
    case FileTask(_, entry, _) =>
      var s2 := s1.(ia := s1.ia.(unverified := s1.ia.unverified + (if VerifyIaFile(content, entry) == Unverified then 1 else 0),
                                 acts := s1.ia.acts + [Fetched(entry, content), Sent(entry)]));
      UploadQueues(s2, false, "", id);
    case CandidateTask(item, _) => UploadQueues(s1, false, "", id);
  }

  lemma DrainQueues(s: Plugin, id: string)
    requires id in DrainAutoQueue(s).queue
    ensures id in s.queue
  {
    hide MirrorItem;
    if Idle(s) && Skipped(s.rows, s.queue) < |s.queue| {
      var n := Skipped(s.rows, s.queue);
      PreserveQueue.MirrorKeepsQueue(s.(queue := s.queue[n + 1..]), s.queue[n]);
    }
  }

  lemma {:induction false} EnqueuedFrom(queue: seq<string>, ids: seq<string>, id: string)
    requires id in EnqueueAll(queue, ids)
    ensures id in queue || id in ids
  {
    if ids != [] && id != ids[|ids| - 1] {
      EnqueuedFrom(queue, ids[..|ids| - 1], id);
    }
  }

  lemma DrainEventQueues(s: Plugin, e: Event, id: string)
    requires e.AutoOn? || e.Discover? || e.HealthTick?
    requires id in Step(s, e).queue && id !in s.queue
    ensures Invited(s, e, id)
  {
    hide DrainAutoQueue, EnqueueAll, Choose, WithinCap, Wanted;
    match e
    case HealthTick => DrainQueues(s, id);
    case AutoOn(listing) =>
      var ids := Choose(listing, x => Wanted(s, x));
      DrainQueues(s.(queue := EnqueueAll(s.queue, ids)), id);
      EnqueuedFrom(s.queue, ids, id);
      PreserveQueue.Chosen(listing, x => Wanted(s, x));
    case Discover(autoOn, ids) =>
      var s1 := WithRows(s, ids);
      var fitting := Choose(ids, x => x in s1.rows && WithinCap(s1, x));
      DrainQueues(s1.(queue := if autoOn then EnqueueAll(s1.queue, fitting) else s1.queue), id);
      if autoOn {
        EnqueuedFrom(s1.queue, fitting, id);
        PreserveQueue.Chosen(ids, x => x in s1.rows && WithinCap(s1, x));
      }
  }

  lemma OtherQueues(s: Plugin, e: Event)
    requires !e.AutoOn? && !e.Discover? && !e.HealthTick? && !e.Reply? && !e.UploadDone?
    ensures forall id | id in Step(s, e).queue :: id in s.queue
  {
    hide SetState, SetStored, SetMirroring, Percent, FilePercent, StartUnpins, CandidatesFor, FilesLeft, WithoutId;
    if e.Abort? {
      PreserveQueue.WithoutIdIs(s.queue, e.id);
    }
  }

  // Nothing enters the queue uninvited.
  lemma QueuedOnlyIf(s: Plugin, e: Event, id: string)
    requires id in Step(s, e).queue && id !in s.queue
    ensures Invited(s, e, id)
  {
    hide DownloadReply, UploadFinished, Wanted, WithinCap;
    if e.AutoOn? || e.Discover? || e.HealthTick? {
      hide Step;
      DrainEventQueues(s, e, id);
    } else if e.Reply? {
      if e.token in s.downloads {
        ReplyQueues(s, e.token, e.ok, e.body, e.content, e.accepted, id);
      } else {
        NoReply(s, e);
      }
    } else if e.UploadDone? {
      UploadQueues(s.(uploading := false), e.ok, e.cid, id);
    } else {
      hide Step;
      OtherQueues(s, e);
    }
  }

  lemma NoReply(s: Plugin, e: Event)
    requires e.Reply? && e.token !in s.downloads
    ensures DownloadReply(s, e.token, e.ok, e.body, e.content, e.accepted) == s
  {
  }

  // A listed item of at most 1 GiB.
  predicate Small(s: Plugin, id: string) {
    id in s.rows && (id in s.catalog ==> s.catalog[id].size <= 0x4000_0000)
  }

  lemma Queued(s: Plugin, ids: seq<string>, id: string)
    requires NoRepeats(s.queue)
    ensures id in EnqueueAll(s.queue, ids) <==> id in s.queue || id in ids
  {
    PreserveQueue.EnqueueAllKeeps(s.queue, ids);
  }

  // While the machine is busy nothing leaves the queue. Turning automatic preserving on adds exactly the available
  // and the failed items of the channel within the ceiling; a discovery adds the discovered ones within it, and only
  // while automatic preserving is on.
  lemma BusyQueueTakesAll(s: Plugin, ids: seq<string>, autoOn: bool, id: string)
    requires !Idle(s) && NoRepeats(s.queue)
    ensures id in Step(s, AutoOn(ids)).queue <==>
            id in s.queue || (id in ids && id != "" && Small(s, id) && (s.rows[id].state == Available || s.rows[id].state == Failed))
    ensures id in Step(s, Discover(autoOn, ids)).queue <==>
            id in s.queue || (autoOn && id in ids && Small(WithRows(s, ids), id))
  {
    hide EnqueueAll, Choose;
    var wanted := Choose(ids, x => Wanted(s, x));
    PreserveQueue.Chosen(ids, x => Wanted(s, x));
    Queued(s, wanted, id);
    var s1 := WithRows(s, ids);
    PreserveQueue.Chosen(ids, x => x in s1.rows && WithinCap(s1, x));
    Queued(s1, Choose(ids, x => x in s1.rows && WithinCap(s1, x)), id);
  }

  lemma IdleDrainQueues(s: Plugin)
    requires !Idle(s)
    ensures DrainAutoQueue(s).queue == s.queue
  {
  }

  // An item leaves the queue when it is cancelled, when the list is emptied, when the process ends, or when a drain
  // finds storage ready and nothing running - and in the first three cases always.
  lemma LeavesOnlyIf(s: Plugin, e: Event, id: string)
    requires id in s.queue && NoRepeats(s.queue)
    ensures id !in Step(s, e).queue ==>
              e == Abort(id) || e.RemoveAll? || e.Restart? || PreserveQueue.EffectiveDrain(s, e)
    ensures e == Abort(id) || e.RemoveAll? || e.Restart? ==> id !in Step(s, e).queue
  {
    hide DownloadReply, UploadFinished, DrainAutoQueue, WithoutId, EnqueueAll, Choose, Wanted, WithinCap, NoRepeats;
    match e
    case Abort(x) =>
      PreserveQueue.WithoutIdIs(s.queue, x);
      if x != id {
        PreserveQueue.WithoutOther(s.queue, x, id);
      }
    case Reply(token, ok, body, content, accepted) => PreserveQueue.ReplyGrows(s, token, ok, body, content, accepted);
    case UploadDone(ok, cid) => PreserveQueue.UploadFinishedGrows(s.(uploading := false), ok, cid);
    case HealthTick =>
      if !Idle(s) {
        IdleDrainQueues(s);
      }
    case AutoOn(listing) =>
      if !Idle(s) {
        hide Step;
        BusyQueueTakesAll(s, listing, false, id);
      }
    case Discover(autoOn, ids) =>
      if !Idle(s) {
        hide Step;
        BusyQueueTakesAll(s, ids, autoOn, id);
      }
    case RemoveAll =>
    case Restart(_) =>
    case StorageState(_) =>
    case _ => PreserveQueue.OtherGrows(s, e);
  }

  // ----- answers of the commands -----

  // The item's files come from the archive.
  predicate OfArchive(s: Plugin, id: string) {
    id in s.rows && id in s.catalog ==> s.catalog[id].cid == "" || "ia:" <= s.catalog[id].cid
  }

  predicate NamesNone(s: Plugin, id: string) {
    id in s.rows && id in s.catalog ==> (s.catalog[id].cid == "" || s.catalog[id].cid == "ia:") && s.catalog[id].iaId == ""
  }

  // What each answer to a preserve says, and that a preserve not taken changes nothing. A taken one shows its row
  // mirroring from 0 and is then the running item or the owner of its CID.
  lemma MirrorAnswers(s: Plugin, id: string)
    ensures var code, r := MirrorCode(s, id), Step(s, Mirror(id));
            var ready := s.storage == Storage.Ready;
            && (code == StorageStarting <==> s.storage == Storage.Starting)
            && (code == StorageOffline <==> s.storage == Storage.Offline)
            && (code == UnknownItem <==> ready && OfArchive(s, id) && NamesNone(s, id))
            && (code == StorageBusy <==>
                  ready && if OfArchive(s, id) then !NamesNone(s, id) && (s.ia.item != "" || s.reseed.item != "")
                           else s.catalog[id].cid in s.pins.cidToItem)
            && code != NothingStored
            && (code != Done ==> r == s)
            && (code == Done ==>
                  && id in s.rows && id in s.catalog
                  && r.rows == s.rows[id := s.rows[id].(state := Mirroring, progress := 0)]
                  && (if OfArchive(s, id) then r.ia.item == id && r.pins == s.pins
                      else
                        && r.ia == s.ia && r.pins.pinning == s.pins.pinning + {s.catalog[id].cid}
                        && r.pins.cidToItem == s.pins.cidToItem[s.catalog[id].cid := id]))
  {
  }

  predicate HasSomething(s: Plugin, id: string) {
    id in s.rows && (s.rows[id].storedCids != [] || (id in s.catalog && s.catalog[id].cid != ""))
  }

  // What each answer to an unpreserve says: there is something to remove when the item has a CID or stored files,
  // and it is refused while one of these is in flight.
  lemma UnmirrorAnswers(s: Plugin, id: string)
    ensures var code, r := UnmirrorCode(s, id), Step(s, Unmirror(id));
            var cids := StoredBy(s, id); var ready := s.storage == Storage.Ready;
            && (code == StorageStarting <==> s.storage == Storage.Starting)
            && (code == StorageOffline <==> s.storage == Storage.Offline)
            && (code == NothingStored <==> (ready && !HasSomething(s, id)))
            && (code == StorageBusy <==> ready && exists c :: c in cids && c in s.pins.cidToItem)
            && code != UnknownItem
            && (code != Done ==> r == s)
            && (code == Done ==>
                  && r.rows == s.rows && id in r.pins.remaining && r.pins.remaining[id] == |cids|
                  && forall c | c in cids :: c in r.pins.cidToItem && r.pins.cidToItem[c] == id && c in r.pins.unpinning)
  {
    var cids := StoredBy(s, id);
    PreserveUnpins.StartedUnpins(s.pins.(remaining := s.pins.remaining[id := |cids|]), id, cids);
    hide StartUnpins;
  }
}
