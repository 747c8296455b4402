/** The automatic queue. While the process runs, every pending item waits in the queue, no item waits
    twice, and an item at position p is gone from it after at most p + 1 effective drains. A restart that
    loads a pending row loses it, since the queue is not saved, and that is the only way to lose one. */
module PreserveQueue {
  import opened Basics
  import opened Inscriptions
  import opened IaFiles
  import opened PreserveSteps
  import Storage = StorageClients

  predicate PendingQueued(catalog: Catalog, rows: Rows, queue: seq<string>) {
    forall id | id in rows && rows[id].state == Pending :: id in queue && Retryable(catalog, id)
  }

  predicate QueueSound(s: Plugin) {
    && NoRepeats(s.queue)
    && PendingQueued(s.catalog, s.rows, s.queue)
    && (s.ia.item != "" ==> Retryable(s.catalog, s.ia.item))
    && s.rows.Keys <= s.catalog.Keys
  }

  predicate NonePending(catalog: Catalog, saved: Rows) {
    forall id | id in saved && id in catalog && id != "" :: saved[id].state != Pending
  }

  // What a restart may not load: a pending row of an inscribed item.
  predicate LoadsNoPending(s: Plugin, e: Event) {
    e.Restart? ==> NonePending(s.catalog, e.loaded)
  }

  // ----- the queue operations -----

  lemma EnqueueKeeps(queue: seq<string>, id: string)
    requires NoRepeats(queue)
    ensures NoRepeats(Enqueue(queue, id)) && queue <= Enqueue(queue, id) && id in Enqueue(queue, id)
  {
  }

  lemma {:induction false} EnqueueAllKeeps(queue: seq<string>, ids: seq<string>)
    requires NoRepeats(queue)
    ensures NoRepeats(EnqueueAll(queue, ids)) && queue <= EnqueueAll(queue, ids)
    ensures forall x :: x in EnqueueAll(queue, ids) <==> x in queue || x in ids
  {
    if ids != [] {
      var before := ids[..|ids| - 1];
      EnqueueAllKeeps(queue, before);
      EnqueueKeeps(EnqueueAll(queue, before), ids[|ids| - 1]);
      assert ids == before + [ids[|ids| - 1]];
    }
  }

  lemma {:induction false} Chosen(ids: seq<string>, wanted: string -> bool)
    ensures forall x :: x in Choose(ids, wanted) <==> x in ids && wanted(x)
  {
    if ids != [] {
      Chosen(ids[..|ids| - 1], wanted);
      assert ids == ids[..|ids| - 1] + [ids[|ids| - 1]];
    }
  }

  lemma {:induction false} WithoutIdIs(queue: seq<string>, id: string)
    ensures var r := WithoutId(queue, id);
            && |r| <= |queue|
            && (forall x :: x in r <==> x in queue && x != id)
            && (NoRepeats(queue) ==> NoRepeats(r))
  {
    if queue != [] {
      var before := queue[..|queue| - 1];
      WithoutIdIs(before, id);
      assert queue == before + [queue[|queue| - 1]];
      if NoRepeats(queue) {
        forall i, j | 0 <= i < j < |before| ensures before[i] != before[j] {
          assert queue[i] != queue[j];
        }
        assert queue[|queue| - 1] !in before;
      }
    }
  }

  lemma {:induction false} SkippedAre(rows: Rows, queue: seq<string>)
    ensures var n := Skipped(rows, queue);
            && (forall i | 0 <= i < n :: !Startable(rows, queue[i]))
            && (n < |queue| ==> Startable(rows, queue[n]))
  {
    if queue != [] && !Startable(rows, queue[0]) {
      SkippedAre(rows, queue[1..]);
      var n := Skipped(rows, queue);
      forall i | 0 <= i < n ensures !Startable(rows, queue[i]) {
        assert i > 0 ==> queue[i] == queue[1..][i - 1];
      }
    }
  }

  // ----- rows -----

  // Rows change, but none becomes pending.
  predicate NoNewPending(rows: Rows, rows': Rows) {
    forall id | id in rows' && rows'[id].state == Pending :: id in rows && rows[id].state == Pending
  }

  lemma RowsMoved(s: Plugin, r: Plugin)
    requires QueueSound(s) && NoNewPending(s.rows, r.rows)
    requires r.catalog == s.catalog && r.queue == s.queue && (r.ia.item == s.ia.item || r.ia.item == "")
    requires r.rows.Keys <= s.catalog.Keys
    ensures QueueSound(r)
  {
    hide Retryable, NoRepeats;
  }

  lemma SetStateKeys(rows: Rows, id: string, state: ItemState, cids: seq<string>, percent: int)
    requires state != Pending
    ensures NoNewPending(rows, SetState(rows, id, state)) && SetState(rows, id, state).Keys == rows.Keys
    ensures NoNewPending(rows, SetState(SetStored(rows, id, cids), id, state))
    ensures SetState(SetStored(rows, id, cids), id, state).Keys == rows.Keys
    ensures NoNewPending(rows, SetMirroring(rows, id, percent)) && SetMirroring(rows, id, percent).Keys == rows.Keys
  {
  }

  // ----- the running item -----

  lemma PendSound(s: Plugin)
    requires QueueSound(s) && s.ia.item != ""
    ensures QueueSound(IaPending(s))
  {
    hide Retryable, NoRepeats;
    EnqueueKeeps(s.queue, s.ia.item);
  }

  lemma FailSound(s: Plugin)
    requires QueueSound(s)
    ensures QueueSound(IaFail(s)) && QueueSound(IaFinish(s))
  {
    hide QueueSound;
    SetStateKeys(s.rows, s.ia.item, Failed, [], 0);
    SetStateKeys(s.rows, s.ia.item, Mirrored, s.ia.stored, 0);
    KnownKeys(s);
    RowsMoved(s, IaFail(s));
    RowsMoved(s, IaFinish(s));
  }

  lemma KnownKeys(s: Plugin)
    requires QueueSound(s)
    ensures s.rows.Keys <= s.catalog.Keys
  {
  }

  // Nothing the queue depends on has changed.
  predicate SameView(s: Plugin, r: Plugin) {
    r.catalog == s.catalog && r.rows == s.rows && r.queue == s.queue && r.ia.item == s.ia.item
  }

  lemma Unchanged(s: Plugin, r: Plugin)
    requires SameView(s, r)
    ensures QueueSound(r) == QueueSound(s)
  {
  }

  lemma NextFileSound(s: Plugin)
    requires QueueSound(s)
    ensures QueueSound(IaNextFile(s))
  {
    hide QueueSound, IaFinish;
    FailSound(s);
    if s.ia.idx < |s.ia.files| {
      Unchanged(s, IaNextFile(s));
    }
  }

  lemma UploadFinishedSound(s: Plugin, ok: bool, cid: string)
    requires QueueSound(s)
    ensures QueueSound(UploadFinished(s, ok, cid))
  {
    hide QueueSound, IaPending, IaNextFile;
    if s.ia.item != "" {
      PendSound(s);
      Unchanged(s, s.(ia := FileStored(s.ia, cid)));
      NextFileSound(s.(ia := FileStored(s.ia, cid)));
    } else if s.reseed.item != "" {
      KnownKeys(s);
      SetStateKeys(s.rows, s.reseed.item, if ok then Mirrored else Failed, [], 0);
      RowsMoved(s, UploadFinished(s, ok, cid));
    }
  }

  lemma StartUploadSound(s: Plugin, accepted: bool, cargo: string)
    requires QueueSound(s)
    ensures QueueSound(StartUpload(s, accepted, cargo))
  {
    hide QueueSound, UploadFinished;
    UploadFinishedSound(s, false, "");
    Unchanged(s, s.(uploading := true, cargo := cargo));
  }

  lemma ManifestQueue(s: Plugin, ok: bool, body: seq<Token>)
    requires QueueSound(s)
    ensures QueueSound(ManifestReply(s, ok, body))
  {
    hide QueueSound, IaFail, IaNextFile, Parsed, SumSizes;
    FailSound(s);
    var s1 := s.(ia := s.ia.(files := Parsed(body), done := 0, total := SumSizes(Parsed(body))));
    Unchanged(s, s1);
    NextFileSound(s1);
  }

  lemma FileQueue(s: Plugin, entry: IaFileEntry, ok: bool, content: Option<Digests>, accepted: bool)
    requires QueueSound(s)
    ensures QueueSound(FileReply(s, entry, ok, content, accepted))
  {
    hide QueueSound, IaFail, StartUpload, VerifyIaFile;
    FailSound(s);
    var s1 := s.(ia := s.ia.(unverified := s.ia.unverified + (if VerifyIaFile(content, entry) == Unverified then 1 else 0),
                             acts := s.ia.acts + [Fetched(entry, content), Sent(entry)]));
    Unchanged(s, s1);
    StartUploadSound(s1, accepted, "");
  }

  lemma CandidateQueue(s: Plugin, item: string, ok: bool, accepted: bool)
    requires QueueSound(s)
    ensures QueueSound(CandidateReply(s, item, ok, accepted))
  {
    hide QueueSound, StartUpload;
    if ok {
      StartUploadSound(s, accepted, item);
    } else if s.reseed.candidates != [] {
      Unchanged(s, TryCandidate(s, item));
    } else {
      KnownKeys(s);
      SetStateKeys(s.rows, item, Failed, [], 0);
      RowsMoved(s, CandidateReply(s, item, ok, accepted));
    }
  }

  lemma ReplyQueue(s: Plugin, token: nat, ok: bool, body: seq<Token>, content: Option<Digests>, accepted: bool)
    requires QueueSound(s)
    ensures QueueSound(DownloadReply(s, token, ok, body, content, accepted))
  {
    hide QueueSound, ManifestReply, FileReply, CandidateReply;
    if token in s.downloads {
      var s1 := s.(downloads := s.downloads - {token});
      Unchanged(s, s1);
      match s.downloads[token]
      case ManifestTask(_) => ManifestQueue(s1, ok, body);
      case FileTask(_, entry, _) => FileQueue(s1, entry, ok, content, accepted);
      case CandidateTask(item, _) => CandidateQueue(s1, item, ok, accepted);
    }
  }

  lemma ShownQueue(s: Plugin, ia: IaRun, id: string, percent: int)
    requires QueueSound(s) && ia.item == s.ia.item
    ensures QueueSound(s.(ia := ia, rows := SetMirroring(s.rows, id, percent)))
  {
    hide QueueSound, NoNewPending, SetMirroring;
    KnownKeys(s);
    SetStateKeys(s.rows, id, Mirroring, [], percent);
    RowsMoved(s, s.(ia := ia, rows := SetMirroring(s.rows, id, percent)));
  }

  lemma ProgressQueue(s: Plugin, token: nat, recv: int, size: int)
    requires QueueSound(s)
    ensures QueueSound(DownloadProgress(s, token, recv, size))
  {
    hide QueueSound, Percent, FilePercent, SetMirroring;
    if token in s.downloads && !s.downloads[token].ManifestTask? {
      var ia := s.ia.(recv := recv, announced := size);
      ShownQueue(s, ia, s.downloads[token].item, Percent(ia));
      ShownQueue(s, s.ia, s.downloads[token].item, FilePercent(recv, size));
    }
  }

  // ----- pins -----

  lemma ReseedQueue(s: Plugin, id: string, cid: string)
    requires QueueSound(s)
    ensures QueueSound(StartReseed(s, id, cid))
  {
    hide QueueSound, NoFile, CandidatesFor;
    if ReseedRefused(s, id) {
      KnownKeys(s);
      SetStateKeys(s.rows, id, Failed, [], 0);
      RowsMoved(s, s.(rows := SetState(s.rows, id, Failed)));
    } else {
      Unchanged(s, StartReseed(s, id, cid));
    }
  }

  lemma PinQueue(s: Plugin, cid: string, ok: bool)
    requires QueueSound(s)
    ensures QueueSound(PinFinished(s, cid, ok))
  {
    hide QueueSound, StartReseed;
    if cid in s.pins.pinning {
      var id := OwnerOf(s.pins, cid);
      var s1 := s.(pins := s.pins.(cidToItem := s.pins.cidToItem - {cid}, pinning := s.pins.pinning - {cid}));
      Unchanged(s, s1);
      ReseedQueue(s1, id, cid);
      KnownKeys(s);
      SetStateKeys(s1.rows, id, Mirrored, [], 0);
      RowsMoved(s1, s1.(rows := SetState(s1.rows, id, Mirrored)));
    }
  }

  lemma SameRows(rows: Rows)
    ensures NoNewPending(rows, rows)
  {
  }

  lemma UnpinQueue(s: Plugin, cid: string, ok: bool)
    requires QueueSound(s)
    ensures QueueSound(UnpinFinished(s, cid, ok))
  {
    hide QueueSound, FilesLeft, TakeUnpin, OwnerOf, SetState, SetStored, NoNewPending;
    if cid in s.pins.unpinning {
      KnownKeys(s);
      SetStateKeys(s.rows, OwnerOf(s.pins, cid), Failed, [], 0);
      SetStateKeys(s.rows, OwnerOf(s.pins, cid), Available, [], 0);
      SameRows(s.rows);
      RowsMoved(s, UnpinFinished(s, cid, ok));
    }
  }

  // ----- starting and draining -----

  lemma MirrorQueue(s: Plugin, id: string)
    requires QueueSound(s)
    ensures QueueSound(MirrorItem(s, id))
  {
    hide NoRepeats;
    SetStateKeys(s.rows, id, Mirroring, [], 0);
    var r := MirrorItem(s, id);
    if MirrorCode(s, id) == Done {
      assert PendingQueued(r.catalog, r.rows, r.queue);
    }
  }

  // The same when the item itself has just left the queue.
  lemma MirrorTaken(s: Plugin, id: string)
    requires NoRepeats(s.queue) && s.rows.Keys <= s.catalog.Keys && Idle(s)
    requires forall x | x in s.rows && s.rows[x].state == Pending ::
               (x in s.queue || x == id) && Retryable(s.catalog, x)
    ensures QueueSound(MirrorItem(s, id))
    ensures id in s.rows && s.rows[id].state == Pending ==> MirrorItem(s, id).ia.item == id
  {
    hide NoRepeats;
  }

  lemma DrainQueue(s: Plugin)
    requires QueueSound(s)
    ensures QueueSound(DrainAutoQueue(s))
  {
    hide MirrorItem, Retryable, Startable;
    if Idle(s) {
      var n := Skipped(s.rows, s.queue);
      SkippedAre(s.rows, s.queue);
      forall x | x in s.rows && s.rows[x].state == Pending
        ensures n < |s.queue| && (x in s.queue[n + 1..] || x == s.queue[n])
      {
        var i :| 0 <= i < |s.queue| && s.queue[i] == x;
        PendingStartable(s.rows, x);
        assert n <= i;
        assert i > n ==> s.queue[n + 1..][i - n - 1] == x;
      }
      if n < |s.queue| {
        MirrorTaken(s.(queue := s.queue[n + 1..]), s.queue[n]);
      }
    }
  }

  lemma PendingStartable(rows: Rows, id: string)
    requires id in rows && rows[id].state == Pending
    ensures Startable(rows, id)
  {
  }

  lemma AutoOnQueue(s: Plugin, listing: seq<string>)
    requires QueueSound(s)
    ensures QueueSound(AutoPreserveOn(s, listing))
  {
    hide DrainAutoQueue, Wanted, Retryable, NoRepeats;
    var ids := Choose(listing, id => Wanted(s, id));
    EnqueueAllKeeps(s.queue, ids);
    DrainQueue(s.(queue := EnqueueAll(s.queue, ids)));
  }

  lemma DiscoverQueue(s: Plugin, autoOn: bool, ids: seq<string>)
    requires QueueSound(s)
    ensures QueueSound(Discovered(s, autoOn, ids))
  {
    hide DrainAutoQueue, WithinCap, Retryable, NoRepeats;
    var s1 := WithRows(s, ids);
    var chosen := Choose(ids, id => id in s1.rows && WithinCap(s1, id));
    EnqueueAllKeeps(s1.queue, chosen);
    assert QueueSound(s1);
    assert QueueSound(s1.(queue := EnqueueAll(s1.queue, chosen)));
    DrainQueue(s1.(queue := if autoOn then EnqueueAll(s1.queue, chosen) else s1.queue));
  }

  lemma AbortQueue(s: Plugin, id: string)
    requires QueueSound(s)
    ensures QueueSound(AbortPreserve(s, id))
  {
    hide Retryable, NoRepeats;
    WithoutIdIs(s.queue, id);
  }

  // A process starts with a sound queue, an empty one, if and only if its state file holds no pending row of
  // an inscribed item.
  lemma BootQueue(catalog: Catalog, saved: Rows)
    ensures QueueSound(Boot(catalog, saved)) <==> NonePending(catalog, saved)
  {
    var r := Boot(catalog, saved);
    if !NonePending(catalog, saved) {
      var id :| id in saved && id in catalog && id != "" && saved[id].state == Pending;
      assert r.rows[id].state == Pending && id !in r.queue;
    }
  }

  // Each step keeps every pending item in the queue, unless it is a restart that loads one.
  lemma StepQueue(s: Plugin, e: Event)
    requires QueueSound(s)
    ensures QueueSound(Step(s, e)) <==> LoadsNoPending(s, e)
  {
    hide QueueSound, MirrorItem, UnmirrorItem, AutoPreserveOn, Discovered, DrainAutoQueue, PinFinished, UnpinFinished,
      Boot, NonePending, DownloadReply, DownloadProgress, UploadFinished, AbortPreserve;
    KnownKeys(s);
    match e
    case Mirror(id) => MirrorQueue(s, id);
    case Unmirror(id) =>
      UnmirrorView(s, id);
      Unchanged(s, UnmirrorItem(s, id));
    case Abort(id) => AbortQueue(s, id);
    case RemoveRow(id) => RowsMoved(s, RemoveItem(s, id));
    case RemoveAll => RemoveAllQueue(s);
    case Unfollow(channelId) => RowsMoved(s, UnfollowChannel(s, channelId));
    case AutoOn(listing) => AutoOnQueue(s, listing);
    case Discover(autoOn, ids) => DiscoverQueue(s, autoOn, ids);
    case HealthTick => DrainQueue(s);
    case StorageState(storage) => Unchanged(s, s.(storage := storage));
    case Reply(token, ok, body, content, accepted) => ReplyQueue(s, token, ok, body, content, accepted);
    case Progress(token, recv, size) => ProgressQueue(s, token, recv, size);
    case UploadDone(ok, cid) =>
      Unchanged(s, s.(uploading := false));
      UploadFinishedSound(if s.uploading then s.(uploading := false) else s, ok, cid);
    case PinDone(cid, ok) => PinQueue(s, cid, ok);
    case UnpinDone(cid, ok) => UnpinQueue(s, cid, ok);
    case Restart(loaded) => BootQueue(s.catalog, loaded);
  }

  lemma UnmirrorView(s: Plugin, id: string)
    ensures SameView(s, UnmirrorItem(s, id))
  {
  }

  lemma RemoveAllQueue(s: Plugin)
    requires QueueSound(s)
    ensures QueueSound(RemoveAllItems(s))
  {
  }

  // A run keeps every pending item in the queue, and none in it twice, at every point if and only if none of
  // its restarts loads a pending row.
  lemma PendingIsQueued(s: Plugin, events: seq<Event>)
    requires QueueSound(s)
    ensures Throughout(s, events, QueueSound) <==> EachStep(s, events, LoadsNoPending)
  {
    hide QueueSound, LoadsNoPending, Step, Throughout, EachStep, RunFrom;
    forall p, e | QueueSound(p) ensures QueueSound(Step(p, e)) <==> LoadsNoPending(p, e) {
      StepQueue(p, e);
    }
    KeptIffAllowed(s, events, QueueSound, LoadsNoPending);
  }

  // A drain that finds a pending item first runs it again.
  lemma PendingRetried(s: Plugin)
    requires QueueSound(s) && Idle(s) && Skipped(s.rows, s.queue) < |s.queue|
    ensures var id := s.queue[Skipped(s.rows, s.queue)];
            id in s.rows && s.rows[id].state == Pending ==> DrainAutoQueue(s).ia.item == id
  {
    hide MirrorItem, Retryable, Startable;
    var n := Skipped(s.rows, s.queue);
    SkippedAre(s.rows, s.queue);
    forall x | x in s.rows && s.rows[x].state == Pending
      ensures x in s.queue[n + 1..] || x == s.queue[n]
    {
      var i :| 0 <= i < |s.queue| && s.queue[i] == x;
      PendingStartable(s.rows, x);
      assert n <= i;
      assert i > n ==> s.queue[n + 1..][i - n - 1] == x;
    }
    MirrorTaken(s.(queue := s.queue[n + 1..]), s.queue[n]);
  }

  // ----- waiting time -----

  // The first position of `id` in the queue.
  function Position(queue: seq<string>, id: string): (p: nat)
    requires id in queue
    ensures p < |queue| && queue[p] == id && id !in queue[..p]
  {
    if queue[0] == id then 0 else 1 + Position(queue[1..], id)
  }

  // `id` is gone, or at least `n` places further to the front than before.
  predicate Advanced(before: seq<string>, after: seq<string>, id: string, n: nat)
    requires id in before
  {
    id in after ==> Position(after, id) + n <= Position(before, id)
  }

  lemma PositionIs(queue: seq<string>, id: string, p: nat)
    requires p < |queue| && queue[p] == id && id !in queue[..p]
    ensures Position(queue, id) == p
  {
    EarlierIsInPrefix(queue, p, Position(queue, id));
    EarlierIsInPrefix(queue, Position(queue, id), p);
  }

  lemma EarlierIsInPrefix(queue: seq<string>, p: nat, q: nat)
    requires p < |queue| && q < |queue|
    ensures q < p ==> queue[q] in queue[..p]
  {
    assert q < p ==> queue[..p][q] == queue[q];
  }

  lemma PrefixKeepsPosition(queue: seq<string>, longer: seq<string>, id: string)
    requires id in queue && queue <= longer
    ensures id in longer && Position(longer, id) == Position(queue, id)
  {
    var p := Position(queue, id);
    assert longer[p] == queue[p] && longer[..p] == queue[..p];
    PositionIs(longer, id, p);
  }

  lemma {:induction false} AllEnqueued(queue: seq<string>, ids: seq<string>)
    ensures queue <= EnqueueAll(queue, ids)
  {
    if ids != [] {
      AllEnqueued(queue, ids[..|ids| - 1]);
    }
  }

  lemma DropAdvances(queue: seq<string>, n: nat, id: string)
    requires NoRepeats(queue) && id in queue && 0 < n <= |queue|
    ensures Advanced(queue, queue[n..], id, 1)
  {
    hide NoRepeats;
    if id in queue[n..] {
      var p := Position(queue, id);
      if p < n {
        assert queue[..n][p] == id;
        RepeatedLater(queue, n, id);
      } else {
        assert queue[n..][p - n] == id;
        var front := queue[n..][..p - n];
        forall k | 0 <= k < |front| ensures front[k] != id {
          assert front[k] == queue[..p][n + k];
        }
        PositionIs(queue[n..], id, p - n);
      }
    }
  }

  lemma RepeatedLater(queue: seq<string>, n: nat, id: string)
    requires n <= |queue| && id in queue[..n] && id in queue[n..]
    ensures !NoRepeats(queue)
  {
    var i :| 0 <= i < n && queue[..n][i] == id;
    var j :| 0 <= j < |queue| - n && queue[n..][j] == id;
    assert queue[n + j] == queue[i];
  }

  lemma {:induction false} WithoutOther(queue: seq<string>, x: string, id: string)
    requires id in queue && id != x
    ensures Advanced(queue, WithoutId(queue, x), id, 0)
  {
    var before, last := queue[..|queue| - 1], queue[|queue| - 1];
    WithoutIdIs(before, x);
    if id in before {
      WithoutOther(before, x, id);
      PrefixKeepsPosition(before, queue, id);
      PrefixKeepsPosition(WithoutId(before, x), WithoutId(queue, x), id);
    } else {
      assert queue == before + [last];
      assert WithoutId(queue, x) == WithoutId(before, x) + [id];
      PositionIs(queue, id, |before|);
      assert WithoutId(queue, x)[..|WithoutId(before, x)|] == WithoutId(before, x);
      PositionIs(WithoutId(queue, x), id, |WithoutId(before, x)|);
    }
  }

  lemma StaysPut(queue: seq<string>, longer: seq<string>, id: string)
    requires id in queue && queue <= longer
    ensures Advanced(queue, longer, id, 0)
  {
    PrefixKeepsPosition(queue, longer, id);
  }

  // A drain that finds storage ready and nothing in flight.
  predicate EffectiveDrain(s: Plugin, e: Event) {
    (e.HealthTick? || e.AutoOn? || e.Discover?) && Idle(s)
  }

  lemma MirrorKeepsQueue(s: Plugin, id: string)
    ensures MirrorItem(s, id).queue == s.queue
  {
  }

  lemma DrainAdvances(s: Plugin, id: string)
    requires NoRepeats(s.queue) && id in s.queue
    ensures Advanced(s.queue, DrainAutoQueue(s).queue, id, Bit(Idle(s)))
  {
    hide MirrorItem, NoRepeats, Position;
    if Idle(s) {
      var n := Skipped(s.rows, s.queue);
      if n < |s.queue| {
        MirrorKeepsQueue(s.(queue := s.queue[n + 1..]), s.queue[n]);
        DropAdvances(s.queue, n + 1, id);
      }
    }
  }

  lemma EnqueuedDrainAdvances(s: Plugin, longer: Plugin, id: string)
    requires NoRepeats(longer.queue) && id in s.queue && s.queue <= longer.queue && Idle(longer) == Idle(s)
    ensures Advanced(s.queue, DrainAutoQueue(longer).queue, id, Bit(Idle(s)))
  {
    hide DrainAutoQueue, NoRepeats, Position, Idle;
    PrefixKeepsPosition(s.queue, longer.queue, id);
    DrainAdvances(longer, id);
  }

  lemma DrainEventAdvances(s: Plugin, e: Event, id: string)
    requires QueueSound(s) && id in s.queue && (e.HealthTick? || e.AutoOn? || e.Discover?)
    ensures Advanced(s.queue, Step(s, e).queue, id, Bit(EffectiveDrain(s, e)))
  {
    hide DrainAutoQueue, NoRepeats, Advanced, WithinCap, Wanted, PendingQueued;
    match e
    case HealthTick => DrainAdvances(s, id);
    case AutoOn(listing) =>
      var ids := Choose(listing, x => Wanted(s, x));
      EnqueueAllKeeps(s.queue, ids);
      EnqueuedDrainAdvances(s, s.(queue := EnqueueAll(s.queue, ids)), id);
    case Discover(autoOn, ids) =>
      var s1 := WithRows(s, ids);
      var chosen := Choose(ids, x => x in s1.rows && WithinCap(s1, x));
      EnqueueAllKeeps(s1.queue, chosen);
      EnqueuedDrainAdvances(s, s1.(queue := if autoOn then EnqueueAll(s1.queue, chosen) else s1.queue), id);
  }

  // What a handler other than the drain can do to the queue: append the item that turned pending.
  predicate QueueGrows(s: Plugin, r: Plugin) {
    s.queue <= r.queue
  }

  lemma UploadFinishedGrows(s: Plugin, ok: bool, cid: string)
    ensures QueueGrows(s, UploadFinished(s, ok, cid))
  {
    hide SetState, SetStored;
  }

  lemma ReplyGrows(s: Plugin, token: nat, ok: bool, body: seq<Token>, content: Option<Digests>, accepted: bool)
    ensures QueueGrows(s, DownloadReply(s, token, ok, body, content, accepted))
  {
    hide UploadFinished, SetState, SetStored, Parsed, VerifyIaFile, SumSizes;
    if token in s.downloads {
      var s1 := s.(downloads := s.downloads - {token});
      match s.downloads[token]
      case ManifestTask(_) =>
      case FileTask(_, entry, _) =>
        UploadFinishedGrows(
          s1.(ia := s1.ia.(unverified := s1.ia.unverified + (if VerifyIaFile(content, entry) == Unverified then 1 else 0),
                           acts := s1.ia.acts + [Fetched(entry, content), Sent(entry)])),
          false, "");
      case CandidateTask(item, _) => UploadFinishedGrows(s1, false, "");
    }
  }

  lemma OtherGrows(s: Plugin, e: Event)
    requires e.Mirror? || e.Unmirror? || e.RemoveRow? || e.Unfollow? || e.StorageState? || e.Progress? || e.PinDone? ||
             e.UnpinDone?
    ensures QueueGrows(s, Step(s, e))
  {
    hide SetState, SetStored, SetMirroring, Percent, FilePercent, StartUnpins, CandidatesFor, FilesLeft;
  }

  // One step moves an item of the queue to the front or leaves it where it is, or it is gone; an effective
  // drain moves it at least one place.
  lemma StepAdvances(s: Plugin, e: Event, id: string)
    requires QueueSound(s) && id in s.queue
    ensures Advanced(s.queue, Step(s, e).queue, id, Bit(EffectiveDrain(s, e)))
  {
    hide QueueSound, Position, DownloadReply, UploadFinished;
    if e.HealthTick? || e.AutoOn? || e.Discover? {
      hide Step;
      DrainEventAdvances(s, e, id);
    } else if e.Reply? {
      ReplyGrows(s, e.token, e.ok, e.body, e.content, e.accepted);
      StaysPut(s.queue, Step(s, e).queue, id);
    } else if e.UploadDone? {
      UploadFinishedGrows(s.(uploading := false), e.ok, e.cid);
      StaysPut(s.queue, Step(s, e).queue, id);
    } else if e.Abort? {
      WithoutIdIs(s.queue, e.id);
      if e.id != id {
        WithoutOther(s.queue, e.id, id);
      }
    } else if !e.RemoveAll? && !e.Restart? {
      hide Step;
      OtherGrows(s, e);
      StaysPut(s.queue, Step(s, e).queue, id);
    }
  }

  function EffectiveDrains(s: Plugin, events: seq<Event>): nat {
    if events == [] then 0
    else
      var before := events[..|events| - 1];
      EffectiveDrains(s, before) + Bit(EffectiveDrain(RunFrom(s, before), events[|before|]))
  }

  predicate AlwaysQueued(s: Plugin, events: seq<Event>, id: string) {
    Throughout(s, events, (p: Plugin) => id in p.queue)
  }

  lemma AlwaysQueuedPrefix(s: Plugin, events: seq<Event>, id: string)
    requires AlwaysQueued(s, events, id)
    ensures id in s.queue && id in RunFrom(s, events).queue
    ensures events != [] ==> AlwaysQueued(s, events[..|events| - 1], id)
  {
    hide Step;
    AtTheEnd(s, events, (p: Plugin) => id in p.queue);
    assert events[..0] == [] && RunFrom(s, []) == s;
    assert id in RunFrom(s, events[..0]).queue;
    if events != [] {
      ThroughoutPrefix(s, events, (p: Plugin) => id in p.queue);
    }
  }

  lemma {:induction false} PositionBudget(s: Plugin, events: seq<Event>, id: string)
    requires QueueSound(s) && AlwaysQueued(s, events, id) && EachStep(s, events, LoadsNoPending)
    ensures id in s.queue && id in RunFrom(s, events).queue
    ensures Position(RunFrom(s, events).queue, id) + EffectiveDrains(s, events) <= Position(s.queue, id)
  {
    hide EachStep, LoadsNoPending, AlwaysQueued, Step, QueueSound, Position, EffectiveDrain;
    AlwaysQueuedPrefix(s, events, id);
    if events != [] {
      var before := events[..|events| - 1];
      EachStepPrefix(s, events, LoadsNoPending);
      PositionBudget(s, before, id);
      PendingIsQueued(s, before);
      AtTheEnd(s, before, QueueSound);
      StepAdvances(RunFrom(s, before), events[|before|], id);
    }
  }

  // An item at position p has left the queue once p + 1 drains found storage ready and nothing in flight.
  lemma LeavesTheQueue(s: Plugin, events: seq<Event>, id: string)
    requires QueueSound(s) && id in s.queue && EachStep(s, events, LoadsNoPending)
    requires EffectiveDrains(s, events) >= Position(s.queue, id) + 1
    ensures exists k | 0 <= k <= |events| :: id !in RunFrom(s, events[..k]).queue
  {
    hide EachStep, QueueSound, Position, RunFrom, EffectiveDrains;
    if AlwaysQueued(s, events, id) {
      PositionBudget(s, events, id);
    }
  }

  // ----- what the queue does not do -----

  // Turning automatic preserving on puts failed items in the queue, but no drain takes one up: a failed
  // row stays failed through every drain.
  lemma FailedIsNotRetried(s: Plugin, e: Event, id: string)
    requires (e.HealthTick? || e.AutoOn? || e.Discover?) && id in s.rows && s.rows[id].state == Failed
    ensures var r := Step(s, e); id in r.rows && r.rows[id] == s.rows[id] && (r.ia.item == id ==> s.ia.item == id)
  {
    hide DrainAutoQueue, WithinCap, Wanted, EnqueueAll, Choose;
    match e
    case HealthTick => DrainSkips(s, id);
    case AutoOn(listing) =>
      DrainSkips(s.(queue := EnqueueAll(s.queue, Choose(listing, x => Wanted(s, x)))), id);
    case Discover(autoOn, ids) =>
      var s1 := WithRows(s, ids);
      DrainSkips(s1.(queue := if autoOn then EnqueueAll(s1.queue, Choose(ids, x => x in s1.rows && WithinCap(s1, x)))
                              else s1.queue), id);
  }

  lemma DrainSkips(s: Plugin, id: string)
    requires id in s.rows && s.rows[id].state == Failed
    ensures var r := DrainAutoQueue(s);
            id in r.rows && r.rows[id] == s.rows[id] && (r.ia.item == id ==> s.ia.item == id)
  {
    hide MirrorItem;
    if Idle(s) {
      var n := Skipped(s.rows, s.queue);
      SkippedAre(s.rows, s.queue);
      if n < |s.queue| {
        MirrorOther(s.(queue := s.queue[n + 1..]), s.queue[n], id);
      }
    }
  }

  lemma MirrorOther(s: Plugin, x: string, id: string)
    requires x != id && id in s.rows
    ensures var r := MirrorItem(s, x);
            id in r.rows && r.rows[id] == s.rows[id] && (r.ia.item == id ==> s.ia.item == id)
  {
  }

  // A pin of the item's CID is under way and its row shows it.
  predicate PinStarted(r: Plugin, id: string) {
    && id in r.catalog && r.catalog[id].cid in r.pins.pinning
    && r.catalog[id].cid in r.pins.cidToItem && r.pins.cidToItem[r.catalog[id].cid] == id
    && id in r.rows && r.rows[id].state == Mirroring
  }

  // The item waits in the queue, is the running item, or is being pinned.
  predicate TakenUp(r: Plugin, id: string) {
    id in r.queue || r.ia.item == id || PinStarted(r, id)
  }

  // Why an idle machine refuses to preserve an item: no archive source, or its CID is already in flight.
  predicate Refuses(s: Plugin, id: string) {
    var source := SourceOf(s, id);
    if FromArchive(source.cid) then ArchiveId(source) == "" else source.cid in s.pins.cidToItem
  }

  // The drain takes this entry: nothing runs and it is the first that can start.
  predicate FirstInLine(s: Plugin, queue: seq<string>, id: string) {
    Idle(s) && Skipped(s.rows, queue) < |queue| && queue[Skipped(s.rows, queue)] == id
  }

  lemma IdleMirror(s: Plugin, id: string)
    requires Idle(s)
    ensures MirrorCode(s, id) == Done <==> !Refuses(s, id)
  {
    hide ArchiveId, FromArchive;
  }

  lemma AcceptedIsTakenUp(s: Plugin, id: string)
    requires Idle(s) && id in s.rows && id in s.catalog && !Refuses(s, id)
    ensures TakenUp(MirrorItem(s, id), id)
  {
    hide ArchiveId, FromArchive, MirrorCode, Refuses;
    IdleMirror(s, id);
  }

  lemma RefusedIsNot(s: Plugin, id: string)
    requires Idle(s) && id != "" && id !in s.queue && Refuses(s, id) && Startable(s.rows, id)
    ensures MirrorItem(s, id) == s && !TakenUp(s, id)
  {
    hide ArchiveId, FromArchive, MirrorCode;
    IdleMirror(s, id);
  }

  // A drain leaves a startable entry queued, running or pinned, if and only if it does not take it to a
  // refusal: the refused entry is gone from the queue and nothing is done about it.
  lemma DrainTakesUp(s: Plugin, id: string)
    requires NoRepeats(s.queue) && id in s.queue && Startable(s.rows, id) && id != "" && id in s.catalog
    ensures TakenUp(DrainAutoQueue(s), id) <==> !(FirstInLine(s, s.queue, id) && Refuses(s, id))
  {
    hide MirrorItem, Refuses, TakenUp, Startable;
    if Idle(s) {
      var n := Skipped(s.rows, s.queue);
      SkippedAre(s.rows, s.queue);
      var i :| 0 <= i < |s.queue| && s.queue[i] == id;
      var s1 := s.(queue := s.queue[n + 1..]);
      MirrorKeepsQueue(s1, s.queue[n]);
      if i > n {
        assert s1.queue[i - n - 1] == id;
        QueuedIsTakenUp(DrainAutoQueue(s), id);
      } else {
        assert i == n;
        assert id !in s1.queue;
        SameRefusal(s, s1, id);
        Listed(s, id);
        if Refuses(s, id) {
          RefusedIsNot(s1, id);
        } else {
          AcceptedIsTakenUp(s1, id);
        }
      }
    } else {
      QueuedIsTakenUp(s, id);
    }
  }

  lemma QueuedIsTakenUp(r: Plugin, id: string)
    requires id in r.queue
    ensures TakenUp(r, id)
  {
  }

  lemma SameRefusal(s: Plugin, s1: Plugin, id: string)
    requires s1 == s.(queue := s1.queue)
    ensures Refuses(s1, id) == Refuses(s, id)
  {
  }

  lemma Listed(s: Plugin, id: string)
    requires Startable(s.rows, id)
    ensures id in s.rows
  {
  }

  // The queue once every wanted item of the channel is in it.
  function WithWanted(s: Plugin, listing: seq<string>): seq<string> {
    EnqueueAll(s.queue, Choose(listing, x => Wanted(s, x)))
  }

  function WithFitting(s: Plugin, ids: seq<string>): seq<string> {
    EnqueueAll(s.queue, Choose(ids, x => x in s.rows && WithinCap(s, x)))
  }

  lemma SameLine(s: Plugin, queue: seq<string>, id: string)
    ensures FirstInLine(s.(queue := queue), queue, id) == FirstInLine(s, queue, id)
    ensures Refuses(s.(queue := queue), id) == Refuses(s, id)
  {
    hide Skipped;
  }

  // Turning automatic preserving on takes up every available item of the channel within the ceiling, if and
  // only if it is not the one the drain takes to a refusal.
  lemma AutoOnTakesUpAll(s: Plugin, listing: seq<string>, id: string)
    requires QueueSound(s) && id in listing && Wanted(s, id) && Startable(s.rows, id)
    ensures TakenUp(Step(s, AutoOn(listing)), id) <==>
            !(FirstInLine(s, WithWanted(s, listing), id) && Refuses(s, id))
  {
    hide DrainAutoQueue, Startable, NoRepeats, PendingQueued, TakenUp, Refuses, FirstInLine;
    var queue := WithWanted(s, listing);
    Chosen(listing, x => Wanted(s, x));
    EnqueueAllKeeps(s.queue, Choose(listing, x => Wanted(s, x)));
    Listed(s, id);
    DrainTakesUp(s.(queue := queue), id);
    SameLine(s, queue, id);
  }

  lemma NewRowFits(s: Plugin, ids: seq<string>, id: string)
    requires id in ids && id in s.catalog && id !in s.rows && id != ""
    requires s.catalog[id].size <= AUTO_PRESERVE_MAX_BYTES
    ensures var s1 := WithRows(s, ids);
            && id in s1.rows && WithinCap(s1, id) && Startable(s1.rows, id)
            && s1.queue == s.queue && s1.catalog == s.catalog
  {
  }

  // So does the discovery of new items while it is on.
  lemma DiscoveryTakesUpAll(s: Plugin, ids: seq<string>, id: string)
    requires QueueSound(s) && id in ids && id in s.catalog && id !in s.rows && id != ""
    requires s.catalog[id].size <= AUTO_PRESERVE_MAX_BYTES
    ensures var s1 := WithRows(s, ids);
            TakenUp(Step(s, Discover(true, ids)), id) <==>
            !(FirstInLine(s1, WithFitting(s1, ids), id) && Refuses(s1, id))
  {
    hide DrainAutoQueue, Startable, WithinCap, NoRepeats, PendingQueued, WithRows, TakenUp, Refuses, FirstInLine;
    var s1 := WithRows(s, ids);
    NewRowFits(s, ids, id);
    var queue := WithFitting(s1, ids);
    Chosen(ids, x => x in s1.rows && WithinCap(s1, x));
    EnqueueAllKeeps(s1.queue, Choose(ids, x => x in s1.rows && WithinCap(s1, x)));
    DrainTakesUp(s1.(queue := queue), id);
    SameLine(s1, queue, id);
  }

  // An item in the queue alone, whose CID is in flight for another: turning automatic preserving on does
  // nothing for it at all.
  lemma BusyItemIsDropped(s: Plugin, id: string)
    requires Idle(s) && s.queue == [] && id in s.catalog && Wanted(s, id) && StateOf(s.rows, id) == Some(Available)
    requires !FromArchive(s.catalog[id].cid) && s.catalog[id].cid in s.pins.cidToItem
    ensures Step(s, AutoOn([id])) == s
  {
    hide Wanted, FromArchive, ArchiveId, EnqueueAll, Choose;
    OneChosen(id, x => Wanted(s, x));
    OneEnqueued(id);
    assert s.(queue := []) == s;
    assert [id][1..] == [];
  }

  lemma OneChosen(id: string, wanted: string -> bool)
    ensures Choose([id], wanted) == if wanted(id) then [id] else []
  {
    assert [id][..0] == [];
  }

  lemma OneEnqueued(id: string)
    ensures EnqueueAll([], [id]) == [id]
  {
    assert [id][..0] == [];
  }

  // Two inscriptions of one CID are enough: the first is pinned, and the next drain takes the second to its
  // refusal.
  lemma SecondOfOneCidIsLost(s: Plugin, first: string, second: string)
    requires Idle(s) && s.queue == [first, second] && first != second && second != ""
    requires first in s.catalog && second in s.catalog && s.catalog[first].cid == s.catalog[second].cid
    requires !FromArchive(s.catalog[first].cid) && s.catalog[first].cid !in s.pins.cidToItem
    requires StateOf(s.rows, first) == Some(Available) && StateOf(s.rows, second) == Some(Available)
    ensures var r := Step(Step(s, HealthTick), HealthTick);
            PinStarted(r, first) && StateOf(r.rows, second) == Some(Available) && !TakenUp(r, second)
  {
    hide FromArchive, ArchiveId;
    var s1 := s.(queue := [second]);
    assert s.queue[1..] == [second] && s1.queue[1..] == [];
    FirstStarts(s.rows, first, second);
    assert Step(s, HealthTick) == MirrorItem(s1, first) == StartPin(s1, first, s.catalog[first].cid);
    var m := StartPin(s1, first, s.catalog[first].cid);
    FirstStarts(m.rows, second, second);
    assert Step(m, HealthTick) == MirrorItem(m.(queue := []), second) == m.(queue := []);
  }

  lemma FirstStarts(rows: Rows, first: string, second: string)
    requires StateOf(rows, first) == Some(Available)
    ensures Skipped(rows, [first, second]) == 0 && Skipped(rows, [first]) == 0
  {
  }

  // Unattended, nothing above the size ceiling enters the queue.
  lemma OversizeStaysManual(s: Plugin, e: Event, id: string)
    requires QueueSound(s) && (e.AutoOn? || e.Discover?)
    requires id in s.catalog && s.catalog[id].size > AUTO_PRESERVE_MAX_BYTES && id !in s.queue
    ensures id !in Step(s, e).queue && (Step(s, e).ia.item == id ==> s.ia.item == id)
  {
    hide DrainAutoQueue, NoRepeats, PendingQueued, Choose, EnqueueAll;
    match e
    case AutoOn(listing) =>
      var ids := Choose(listing, x => Wanted(s, x));
      Chosen(listing, x => Wanted(s, x));
      TooLarge(s, id);
      EnqueueAllKeeps(s.queue, ids);
      DrainOnlyQueued(s.(queue := EnqueueAll(s.queue, ids)), id);
    case Discover(autoOn, ids) =>
      var s1 := WithRows(s, ids);
      var chosen := Choose(ids, x => x in s1.rows && WithinCap(s1, x));
      Chosen(ids, x => x in s1.rows && WithinCap(s1, x));
      TooLarge(s1, id);
      EnqueueAllKeeps(s1.queue, chosen);
      DrainOnlyQueued(s1.(queue := if autoOn then EnqueueAll(s1.queue, chosen) else s1.queue), id);
  }

  lemma TooLarge(s: Plugin, id: string)
    requires id in s.catalog && s.catalog[id].size > AUTO_PRESERVE_MAX_BYTES
    ensures id in s.rows ==> !WithinCap(s, id)
    ensures !Wanted(s, id)
  {
  }

  lemma DrainOnlyQueued(s: Plugin, id: string)
    requires id !in s.queue
    ensures id !in DrainAutoQueue(s).queue && (DrainAutoQueue(s).ia.item == id ==> s.ia.item == id)
  {
    hide MirrorItem;
    if Idle(s) {
      var n := Skipped(s.rows, s.queue);
      if n < |s.queue| {
        MirrorKeepsQueue(s.(queue := s.queue[n + 1..]), s.queue[n]);
        MirrorRuns(s.(queue := s.queue[n + 1..]), s.queue[n]);
      }
    }
  }

  lemma MirrorRuns(s: Plugin, x: string)
    ensures MirrorItem(s, x).ia.item == s.ia.item || MirrorItem(s, x).ia.item == x
  {
  }
}
