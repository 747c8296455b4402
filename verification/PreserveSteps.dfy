/** The preserve machine (src/plugin/ArchivePlugin.cpp): what each command, timer tick and reply does to
    the rows, the running preserve, the reseed, the pins in flight and the automatic queue. Rows are found
    by id; ids are distinct across the followed channels, so a map holds them. What a row's inscription
    says never changes and stands in the catalog. The fields acts, completed, settled and
    cargo are history: the program does not read them. */
module PreserveSteps {
  import opened Basics
  import opened Inscriptions
  import opened IaFiles
  import Labels
  import Storage = StorageClients

  // What the inscription of an item says.
  datatype Source = Source(channelId: string, cid: string, iaId: string, title: string, size: int)

  type Catalog = map<string, Source>

  datatype Row = Row(state: ItemState, progress: int, storedCids: seq<string>)

  type Rows = map<string, Row>

  // An HTTP download: which file of which archive item it fetches, and what its handler captured.
  datatype Task =
    | ManifestTask(iaId: string)
    | FileTask(iaId: string, entry: IaFileEntry, item: string)
    | CandidateTask(item: string, source: Labels.IaRef)

  // One thing done for a run, in order.
  datatype Act =
    | Fetched(entry: IaFileEntry, content: Option<Digests>)
    | Sent(entry: IaFileEntry)
    | Kept(cid: string)

  // The running item preserve; item "" means none, and tracked is its current download, 0 for none.
  datatype IaRun = IaRun(
    item: string, iaId: string, files: seq<IaFileEntry>, idx: nat, unverified: nat, total: int, done: int,
    stored: seq<string>, tracked: nat, recv: int, announced: int, acts: seq<Act>)

  // A run that ended in "mirrored".
  datatype Completed = Completed(
    item: string, files: seq<IaFileEntry>, acts: seq<Act>, stored: seq<string>, unverified: nat, done: int, total: int)

  // A reseed that ended in "mirrored", and whether the upload that ended it carried its own file.
  datatype Settled = Settled(item: string, own: bool)

  // The running reseed; item "" means none. `tried` counts its downloads.
  datatype Reseed = Reseed(item: string, cid: string, candidates: seq<string>, tried: nat)

  // Pins and unpins in flight: whose each CID is, files left per item, and the calls not yet answered.
  datatype Pins = Pins(
    cidToItem: map<string, string>, remaining: map<string, int>, pinning: set<string>, unpinning: multiset<string>)

  // `cargo` is the item whose re-seed file the outstanding upload carries, "" for a file of a running item.
  datatype Plugin = Plugin(
    catalog: Catalog, rows: Rows, storage: Storage.Readiness, uploading: bool, ia: IaRun, reseed: Reseed, pins: Pins,
    downloads: map<nat, Task>, nextDownload: nat, queue: seq<string>, completed: seq<Completed>,
    settled: seq<Settled>, cargo: string)

  const NO_RUN := IaRun("", "", [], 0, 0, 0, 0, [], 0, 0, 0, [])
  const NO_RESEED := Reseed("", "", [], 0)
  const NO_PINS := Pins(map[], map[], {}, multiset{})

  const AUTO_PRESERVE_MAX_BYTES := 1024 * 1024 * 1024

  datatype Event =
    | Mirror(id: string)
    | Unmirror(id: string)
    | Abort(id: string)
    | RemoveRow(id: string)
    | RemoveAll
    | Unfollow(channelId: string)
    | AutoOn(listing: seq<string>)
    | Discover(autoOn: bool, ids: seq<string>)
    | HealthTick
    | StorageState(storage: Storage.Readiness)
    | Reply(token: nat, ok: bool, body: seq<Token>, content: Option<Digests>, accepted: bool)
    | Progress(token: nat, recv: int, size: int)
    | UploadDone(ok: bool, cid: string)
    | PinDone(cid: string, ok: bool)
    | UnpinDone(cid: string, ok: bool)
    | Restart(loaded: Rows)

  function NewPlugin(catalog: Catalog, rows: Rows): Plugin {
    Plugin(catalog, rows, Storage.Offline, false, NO_RUN, NO_RESEED, NO_PINS, map[], 1, [], [], [], "")
  }

  // ----- rows -----

  function StateOf(rows: Rows, id: string): Option<ItemState> {
    if id in rows then Some(rows[id].state) else None
  }

  function SetState(rows: Rows, id: string, state: ItemState): Rows {
    if id in rows
    then rows[id := rows[id].(state := state, progress := if state == Mirroring then rows[id].progress else 0)]
    else rows
  }

  function SetMirroring(rows: Rows, id: string, progress: int): Rows {
    if id in rows
    then rows[id := rows[id].(state := Mirroring, progress := if progress >= 0 then progress else rows[id].progress)]
    else rows
  }

  function SetStored(rows: Rows, id: string, cids: seq<string>): Rows {
    if id in rows then rows[id := rows[id].(storedCids := cids)] else rows
  }

  function SourceOf(s: Plugin, id: string): Source {
    if id in s.rows && id in s.catalog then s.catalog[id] else Source("", "", "", "", 0)
  }

  // Content that comes from the Internet Archive and is no storage CID.
  predicate FromArchive(cid: string) {
    cid == "" || StartsWith(cid, "ia:")
  }

  function ArchiveId(source: Source): string {
    var inCid := if StartsWith(source.cid, "ia:") then source.cid[3..] else "";
    if inCid == "" then source.iaId else inCid
  }

  // A preserve of this item starts whenever storage is ready and nothing else runs.
  predicate Retryable(catalog: Catalog, id: string) {
    id in catalog && FromArchive(catalog[id].cid) && ArchiveId(catalog[id]) != ""
  }

  // ----- downloads and uploads -----

  function StartDownload(s: Plugin, task: Task): Plugin {
    s.(downloads := s.downloads[s.nextDownload := task], nextDownload := s.nextDownload + 1)
  }

  function Enqueue(queue: seq<string>, id: string): seq<string> {
    if id in queue then queue else queue + [id]
  }

  function IaFail(s: Plugin): Plugin {
    s.(ia := s.ia.(item := "", files := [], stored := []), rows := SetState(s.rows, s.ia.item, Failed))
  }

  // Storage failed for the moment: the item waits for the next drain.
  function IaPending(s: Plugin): Plugin {
    s.(ia := s.ia.(item := "", files := [], stored := []), rows := SetState(s.rows, s.ia.item, Pending),
       queue := Enqueue(s.queue, s.ia.item))
  }

  function RunRecord(ia: IaRun): Completed {
    Completed(ia.item, ia.files, ia.acts, ia.stored, ia.unverified, ia.done, ia.total)
  }

  function IaFinish(s: Plugin): Plugin {
    s.(ia := s.ia.(item := "", files := [], stored := []),
       rows := SetState(SetStored(s.rows, s.ia.item, s.ia.stored), s.ia.item, Mirrored),
       completed := s.completed + [RunRecord(s.ia)])
  }

  function IaNextFile(s: Plugin): Plugin {
    if s.ia.idx >= |s.ia.files| then IaFinish(s)
    else
      StartDownload(s.(ia := s.ia.(tracked := s.nextDownload, recv := 0, announced := 0)),
                    FileTask(s.ia.iaId, s.ia.files[s.ia.idx], s.ia.item))
  }

  // The bytes and the CID of the file just stored are taken over and the index moves on.
  function FileStored(ia: IaRun, cid: string): IaRun {
    ia.(stored := if cid == "" then ia.stored else ia.stored + [cid],
        acts := ia.acts + [Kept(cid)],
        done := if ia.idx < |ia.files| then ia.done + ia.files[ia.idx].size else ia.done,
        idx := ia.idx + 1)
  }

  // uploadFinished: the running item preserve owns it, else the reseed, else nobody.
  function UploadFinished(s: Plugin, ok: bool, cid: string): Plugin {
    if s.ia.item != "" then
      if ok then IaNextFile(s.(ia := FileStored(s.ia, cid))) else IaPending(s)
    else if s.reseed.item == "" then s
    else
      s.(reseed := s.reseed.(item := "", cid := if ok then "" else s.reseed.cid),
         rows := SetState(s.rows, s.reseed.item, if ok then Mirrored else Failed),
         settled := if ok then s.settled + [Settled(s.reseed.item, s.cargo == s.reseed.item)] else s.settled)
  }

  // The storage client refuses a second upload; the transport may refuse the first.
  function StartUpload(s: Plugin, accepted: bool, cargo: string): Plugin {
    if s.uploading || !accepted then UploadFinished(s, false, "") else s.(uploading := true, cargo := cargo)
  }

  // ----- the item preserve -----

  function StartIa(s: Plugin, id: string, iaId: string): Plugin {
    StartDownload(
      s.(ia := NO_RUN.(item := id, iaId := iaId, tracked := s.nextDownload), rows := SetMirroring(s.rows, id, 0)),
      ManifestTask(iaId))
  }

  function SumSizes(files: seq<IaFileEntry>): int {
    if files == [] then 0 else SumSizes(files[..|files| - 1]) + files[|files| - 1].size
  }

  function ManifestReply(s: Plugin, ok: bool, body: seq<Token>): Plugin {
    if s.ia.item == "" then s
    else if !ok then IaFail(s)
    else
      var files := Parsed(body);
      if files == [] then IaFail(s)
      else IaNextFile(s.(ia := s.ia.(files := files, done := 0, total := SumSizes(files))))
  }

  function FileReply(s: Plugin, entry: IaFileEntry, ok: bool, content: Option<Digests>, accepted: bool): Plugin {
    if s.ia.item == "" then s
    else if !ok then IaFail(s)
    else
      var verdict := VerifyIaFile(content, entry);
      if verdict == Mismatch then IaFail(s)
      else
        StartUpload(
          s.(ia := s.ia.(unverified := s.ia.unverified + (if verdict == Unverified then 1 else 0),
                         acts := s.ia.acts + [Fetched(entry, content), Sent(entry)])),
          accepted, "")
  }

  function Percent(ia: IaRun): int {
    if ia.total > 0 then Quotient((ia.done + ia.recv) * 100, ia.total)
    else if ia.files == [] then 0
    else Quotient(ia.idx * 100 + FilePercent(ia.recv, ia.announced), |ia.files|)
  }

  function FilePercent(recv: int, size: int): int {
    if size > 0 then Quotient(recv * 100, size) else 0
  }

  // Integer division as the program has it: towards zero.
  function Quotient(a: int, b: int): int
    requires b > 0
  {
    if a >= 0 then a / b else -(-a / b)
  }

  function FileProgress(s: Plugin, item: string, recv: int, size: int): Plugin {
    if s.ia.item != item || s.ia.files == [] then s
    else
      var ia := s.ia.(recv := recv, announced := size);
      s.(ia := ia, rows := SetMirroring(s.rows, item, Percent(ia)))
  }

  // ----- the reseed -----

  function TryCandidate(s: Plugin, item: string): Plugin
    requires s.reseed.candidates != []
  {
    StartDownload(s.(reseed := s.reseed.(candidates := s.reseed.candidates[1..], tried := s.reseed.tried + 1)),
                  CandidateTask(item, Labels.Decode(s.reseed.candidates[0])))
  }

  predicate NoFile(candidate: string) {
    candidate != "" && candidate[|candidate| - 1] == '|'
  }

  function CandidatesFor(s: Plugin, id: string): seq<string> {
    Labels.Candidates(SourceOf(s, id).cid, SourceOf(s, id).title)
  }

  // Why a reseed does not start.
  predicate ReseedRefused(s: Plugin, id: string) {
    CandidatesFor(s, id) == [] || NoFile(CandidatesFor(s, id)[0]) || s.reseed.item != ""
  }

  function StartReseed(s: Plugin, id: string, cid: string): Plugin {
    if ReseedRefused(s, id) then s.(rows := SetState(s.rows, id, Failed))
    else TryCandidate(s.(reseed := Reseed(id, cid, CandidatesFor(s, id), 0)), id)
  }

  function CandidateReply(s: Plugin, item: string, ok: bool, accepted: bool): Plugin {
    if ok then StartUpload(s, accepted, item)
    else if s.reseed.candidates != [] then TryCandidate(s, item)
    else s.(reseed := s.reseed.(item := ""), rows := SetState(s.rows, item, Failed))
  }

  function DownloadReply(s: Plugin, token: nat, ok: bool, body: seq<Token>, content: Option<Digests>, accepted: bool): Plugin {
    if token !in s.downloads then s
    else
      var s1 := s.(downloads := s.downloads - {token});
      match s.downloads[token]
      case ManifestTask(_) => ManifestReply(s1, ok, body)
      case FileTask(_, entry, _) => FileReply(s1, entry, ok, content, accepted)
      case CandidateTask(item, _) => CandidateReply(s1, item, ok, accepted)
  }

  function DownloadProgress(s: Plugin, token: nat, recv: int, size: int): Plugin {
    if token !in s.downloads then s
    else
      match s.downloads[token]
      case ManifestTask(_) => s
      case FileTask(_, _, item) => FileProgress(s, item, recv, size)
      case CandidateTask(item, _) => s.(rows := SetMirroring(s.rows, item, FilePercent(recv, size)))
  }

  // ----- commands -----

  datatype Code = Done | StorageStarting | StorageOffline | UnknownItem | StorageBusy | NothingStored

  function NotReady(storage: Storage.Readiness): Code {
    if storage == Storage.Starting then StorageStarting else StorageOffline
  }

  function MirrorCode(s: Plugin, id: string): Code {
    var source := SourceOf(s, id);
    if s.storage != Storage.Ready then NotReady(s.storage)
    else if FromArchive(source.cid) then
      if ArchiveId(source) == "" then UnknownItem
      else if s.ia.item != "" || s.reseed.item != "" then StorageBusy
      else Done
    else if source.cid in s.pins.cidToItem then StorageBusy
    else Done
  }

  function StartPin(s: Plugin, id: string, cid: string): Plugin {
    s.(pins := s.pins.(cidToItem := s.pins.cidToItem[cid := id], pinning := s.pins.pinning + {cid}),
       rows := SetMirroring(s.rows, id, 0))
  }

  function MirrorItem(s: Plugin, id: string): Plugin {
    var source := SourceOf(s, id);
    if MirrorCode(s, id) != Done then s
    else if FromArchive(source.cid) then StartIa(s, id, ArchiveId(source))
    else StartPin(s, id, source.cid)
  }

  function StoredBy(s: Plugin, id: string): seq<string> {
    var cid := SourceOf(s, id).cid;
    if cid != "" then [cid] else if id in s.rows then s.rows[id].storedCids else []
  }

  function UnmirrorCode(s: Plugin, id: string): Code {
    var cids := StoredBy(s, id);
    if s.storage != Storage.Ready then NotReady(s.storage)
    else if cids == [] then NothingStored
    else if exists c | c in cids :: c in s.pins.cidToItem then StorageBusy
    else Done
  }

  function StartUnpins(p: Pins, id: string, cids: seq<string>): Pins {
    if cids == [] then p
    else
      var last := cids[|cids| - 1];
      var before := StartUnpins(p, id, cids[..|cids| - 1]);
      before.(cidToItem := before.cidToItem[last := id], unpinning := before.unpinning + multiset{last})
  }

  function UnmirrorItem(s: Plugin, id: string): Plugin {
    if UnmirrorCode(s, id) != Done then s
    else
      var cids := StoredBy(s, id);
      s.(pins := StartUnpins(s.pins.(remaining := s.pins.remaining[id := |cids|]), id, cids))
  }

  function WithoutId(queue: seq<string>, id: string): seq<string> {
    if queue == [] then []
    else WithoutId(queue[..|queue| - 1], id) + if queue[|queue| - 1] == id then [] else [queue[|queue| - 1]]
  }

  // Cancelling the tracked download ends it; its handler finds no running item and does nothing.
  function AbortPreserve(s: Plugin, id: string): Plugin {
    var s1 := s.(queue := WithoutId(s.queue, id), rows := SetState(s.rows, id, Available));
    if s.ia.item != id then s1
    else
      s1.(ia := s.ia.(item := "", files := [], total := 0, done := 0, stored := []),
          downloads := s.downloads - {s.ia.tracked})
  }

  function RemoveItem(s: Plugin, id: string): Plugin {
    s.(rows := s.rows - {id})
  }

  function RemoveAllItems(s: Plugin): Plugin {
    s.(rows := map[], queue := [])
  }

  function UnfollowChannel(s: Plugin, channelId: string): Plugin {
    s.(rows := map id | id in s.rows && !(id in s.catalog && s.catalog[id].channelId == channelId) :: s.rows[id])
  }

  // ----- pins and unpins answered -----

  function OwnerOf(p: Pins, cid: string): string {
    if cid in p.cidToItem then p.cidToItem[cid] else ""
  }

  function PinFinished(s: Plugin, cid: string, ok: bool): Plugin {
    if cid !in s.pins.pinning then s
    else
      var id := OwnerOf(s.pins, cid);
      var s1 := s.(pins := s.pins.(cidToItem := s.pins.cidToItem - {cid}, pinning := s.pins.pinning - {cid}));
      if ok then s1.(rows := SetState(s1.rows, id, Mirrored)) else StartReseed(s1, id, cid)
  }

  // Taking the answered unpin out of the books, whatever its outcome.
  function TakeUnpin(p: Pins, cid: string): Pins {
    p.(cidToItem := p.cidToItem - {cid}, unpinning := p.unpinning - multiset{cid})
  }

  predicate FilesLeft(p: Pins, id: string) {
    id in p.remaining && p.remaining[id] - 1 > 0
  }

  function UnpinFinished(s: Plugin, cid: string, ok: bool): Plugin {
    if cid !in s.pins.unpinning then s
    else
      var id := OwnerOf(s.pins, cid);
      var p := TakeUnpin(s.pins, cid);
      if id == "" then s.(pins := p)
      else if !ok then
        s.(pins := p.(remaining := p.remaining - {id}), rows := SetState(s.rows, id, Failed))
      else if FilesLeft(p, id) then s.(pins := p.(remaining := p.remaining[id := p.remaining[id] - 1]))
      else
        s.(pins := p.(remaining := p.remaining - {id}),
           rows := SetState(SetStored(s.rows, id, []), id, Available))
  }

  // ----- the automatic queue -----

  predicate Startable(rows: Rows, id: string) {
    StateOf(rows, id) == Some(Available) || StateOf(rows, id) == Some(Pending)
  }

  // The entries dropped before the first one that can start.
  function Skipped(rows: Rows, queue: seq<string>): (n: nat)
    ensures n <= |queue|
  {
    if queue == [] || Startable(rows, queue[0]) then 0 else 1 + Skipped(rows, queue[1..])
  }

  predicate Idle(s: Plugin) {
    s.ia.item == "" && s.reseed.item == "" && s.storage == Storage.Ready
  }

  function DrainAutoQueue(s: Plugin): Plugin {
    if !Idle(s) then s
    else
      var n := Skipped(s.rows, s.queue);
      if n == |s.queue| then s.(queue := [])
      else MirrorItem(s.(queue := s.queue[n + 1..]), s.queue[n])
  }

  predicate WithinCap(s: Plugin, id: string) {
    SourceOf(s, id).size <= AUTO_PRESERVE_MAX_BYTES
  }

  // The items of a channel that turning automatic preserving on puts in the queue.
  predicate Wanted(s: Plugin, id: string) {
    && id != ""
    && (StateOf(s.rows, id) == Some(Available) || StateOf(s.rows, id) == Some(Failed))
    && WithinCap(s, id)
  }

  function EnqueueAll(queue: seq<string>, ids: seq<string>): seq<string> {
    if ids == [] then queue else Enqueue(EnqueueAll(queue, ids[..|ids| - 1]), ids[|ids| - 1])
  }

  function Choose(ids: seq<string>, wanted: string -> bool): seq<string> {
    if ids == [] then []
    else Choose(ids[..|ids| - 1], wanted) + if wanted(ids[|ids| - 1]) then [ids[|ids| - 1]] else []
  }

  function AutoPreserveOn(s: Plugin, listing: seq<string>): Plugin {
    DrainAutoQueue(s.(queue := EnqueueAll(s.queue, Choose(listing, id => Wanted(s, id)))))
  }

  // The new rows among `ids`: inscribed on chain and not listed yet.
  function NewRows(s: Plugin, ids: seq<string>): Rows {
    map id | id in ids && id in s.catalog && id !in s.rows && id != "" :: Row(Available, 0, [])
  }

  function WithRows(s: Plugin, ids: seq<string>): Plugin {
    s.(rows := s.rows + NewRows(s, ids))
  }

  function Discovered(s: Plugin, autoOn: bool, ids: seq<string>): Plugin {
    var s1 := WithRows(s, ids);
    DrainAutoQueue(
      s1.(queue := if autoOn then EnqueueAll(s1.queue, Choose(ids, id => id in s1.rows && WithinCap(s1, id)))
                   else s1.queue))
  }

  // ----- restart -----

  function ResetRow(row: Row): Row {
    row.(state := ResetState(row.state), progress := 0)
  }

  // A process that starts over the rows its state file holds.
  function Boot(catalog: Catalog, saved: Rows): Plugin {
    NewPlugin(catalog, map id | id in saved && id in catalog && id != "" :: ResetRow(saved[id]))
  }

  function RestartWith(s: Plugin, loaded: Rows): Plugin {
    Boot(s.catalog, loaded)
  }

  function Step(s: Plugin, e: Event): Plugin {
    match e
    case Mirror(id) => MirrorItem(s, id)
    case Unmirror(id) => UnmirrorItem(s, id)
    case Abort(id) => AbortPreserve(s, id)
    case RemoveRow(id) => RemoveItem(s, id)
    case RemoveAll => RemoveAllItems(s)
    case Unfollow(channelId) => UnfollowChannel(s, channelId)
    case AutoOn(listing) => AutoPreserveOn(s, listing)
    case Discover(autoOn, ids) => Discovered(s, autoOn, ids)
    case HealthTick => DrainAutoQueue(s)
    case StorageState(storage) => s.(storage := storage)
    case Reply(token, ok, body, content, accepted) => DownloadReply(s, token, ok, body, content, accepted)
    case Progress(token, recv, size) => DownloadProgress(s, token, recv, size)
    case UploadDone(ok, cid) => if s.uploading then UploadFinished(s.(uploading := false), ok, cid) else s
    case PinDone(cid, ok) => PinFinished(s, cid, ok)
    case UnpinDone(cid, ok) => UnpinFinished(s, cid, ok)
    case Restart(loaded) => RestartWith(s, loaded)
  }

  function RunFrom(s: Plugin, events: seq<Event>): Plugin {
    if events == [] then s else Step(RunFrom(s, events[..|events| - 1]), events[|events| - 1])
  }

  // ----- properties of runs -----

  predicate Throughout(s: Plugin, events: seq<Event>, holds: Plugin -> bool) {
    forall i | 0 <= i <= |events| :: holds(RunFrom(s, events[..i]))
  }

  predicate EachStep(s: Plugin, events: seq<Event>, allowed: (Plugin, Event) -> bool) {
    forall i | 0 <= i < |events| :: allowed(RunFrom(s, events[..i]), events[i])
  }

  lemma EachStepPrefix(s: Plugin, events: seq<Event>, allowed: (Plugin, Event) -> bool)
    requires events != []
    ensures var before := events[..|events| - 1];
            EachStep(s, events, allowed) <==>
            EachStep(s, before, allowed) && allowed(RunFrom(s, before), events[|before|])
  {
    hide RunFrom;
    var before := events[..|events| - 1];
    forall i | 0 <= i < |events| ensures before[..i] == events[..i] {
    }
    if EachStep(s, before, allowed) && allowed(RunFrom(s, before), events[|before|]) {
      forall i | 0 <= i < |events| ensures allowed(RunFrom(s, events[..i]), events[i]) {
        assert i < |before| ==> allowed(RunFrom(s, before[..i]), before[i]);
      }
    }
    if EachStep(s, events, allowed) {
      forall i | 0 <= i < |before| ensures allowed(RunFrom(s, before[..i]), before[i]) {
        assert allowed(RunFrom(s, events[..i]), events[i]);
      }
    }
  }

  lemma ThroughoutPrefix(s: Plugin, events: seq<Event>, holds: Plugin -> bool)
    requires events != []
    ensures Throughout(s, events, holds) <==>
            Throughout(s, events[..|events| - 1], holds) && holds(RunFrom(s, events))
  {
    hide RunFrom;
    var before := events[..|events| - 1];
    forall i | 0 <= i <= |before| ensures before[..i] == events[..i] {
    }
    assert events[..|events|] == events;
    if Throughout(s, before, holds) && holds(RunFrom(s, events)) {
      forall i | 0 <= i <= |events| ensures holds(RunFrom(s, events[..i])) {
        assert i < |events| ==> holds(RunFrom(s, before[..i]));
      }
    }
    if Throughout(s, events, holds) {
      forall i | 0 <= i <= |before| ensures holds(RunFrom(s, before[..i])) {
        assert holds(RunFrom(s, events[..i]));
      }
    }
  }

  lemma AtTheEnd(s: Plugin, events: seq<Event>, holds: Plugin -> bool)
    requires Throughout(s, events, holds)
    ensures holds(RunFrom(s, events))
  {
    assert events[..|events|] == events;
  }

  // A property that each step keeps exactly when it is allowed holds throughout a run exactly when each of
  // its events was allowed when it came.
  lemma {:induction false} KeptIffAllowed(
    s: Plugin, events: seq<Event>, holds: Plugin -> bool, allowed: (Plugin, Event) -> bool)
    requires holds(s)
    requires forall p, e | holds(p) :: holds(Step(p, e)) <==> allowed(p, e)
    ensures Throughout(s, events, holds) <==> EachStep(s, events, allowed)
  {
    hide Step;
    if events == [] {
      assert events[..0] == [];
    } else {
      var before := events[..|events| - 1];
      KeptIffAllowed(s, before, holds, allowed);
      ThroughoutPrefix(s, events, holds);
      EachStepPrefix(s, events, allowed);
      if Throughout(s, before, holds) {
        AtTheEnd(s, before, holds);
      }
    }
  }

  // ----- runs one after another -----

  lemma {:induction false} RunsJoin(s: Plugin, a: seq<Event>, b: seq<Event>)
    ensures RunFrom(s, a + b) == RunFrom(RunFrom(s, a), b)
  {
    hide Step;
    if b == [] {
      assert a + b == a;
    } else {
      var n := |b| - 1;
      assert (a + b)[..|a + b| - 1] == a + b[..n];
      RunsJoin(s, a, b[..n]);
    }
  }

  lemma {:induction false} EachJoins(s: Plugin, a: seq<Event>, b: seq<Event>, allowed: (Plugin, Event) -> bool)
    ensures EachStep(s, a + b, allowed) <==> EachStep(s, a, allowed) && EachStep(RunFrom(s, a), b, allowed)
  {
    hide Step, RunFrom, EachStep;
    if b == [] {
      assert a + b == a;
      NoSteps(RunFrom(s, a), allowed);
    } else {
      var n := |b| - 1;
      assert (a + b)[..|a + b| - 1] == a + b[..n];
      EachJoins(s, a, b[..n], allowed);
      EachStepPrefix(s, a + b, allowed);
      EachStepPrefix(RunFrom(s, a), b, allowed);
      RunsJoin(s, a, b[..n]);
    }
  }

  lemma NoSteps(s: Plugin, allowed: (Plugin, Event) -> bool)
    ensures EachStep(s, [], allowed)
  {
  }

  lemma TwoSteps(s: Plugin, e: Event, f: Event)
    ensures RunFrom(s, [e, f]) == Step(Step(s, e), f)
    ensures forall allowed: (Plugin, Event) -> bool ::
              EachStep(s, [e, f], allowed) <==> allowed(s, e) && allowed(Step(s, e), f)
  {
    hide Step;
    assert [e, f][..1] == [e] && [e][..0] == [];
    assert RunFrom(s, [e]) == Step(RunFrom(s, []), e);
    forall allowed: (Plugin, Event) -> bool
      ensures EachStep(s, [e, f], allowed) <==> allowed(s, e) && allowed(Step(s, e), f)
    {
      EachStepPrefix(s, [e, f], allowed);
      EachStepPrefix(s, [e], allowed);
      NoSteps(s, allowed);
    }
  }

  // ----- what may still come -----

  // Whatever allowed events come, the property holds then.
  ghost predicate Always(s: Plugin, holds: Plugin -> bool, allowed: (Plugin, Event) -> bool) {
    forall events | EachStep(s, events, allowed) :: holds(RunFrom(s, events))
  }

  lemma NowFails(s: Plugin, holds: Plugin -> bool, allowed: (Plugin, Event) -> bool)
    requires !holds(s)
    ensures !Always(s, holds, allowed)
  {
    hide Step;
    NoSteps(s, allowed);
    assert RunFrom(s, []) == s;
  }

  // What an allowed run leads to, the start leads to.
  lemma FailsBefore(s: Plugin, events: seq<Event>, holds: Plugin -> bool, allowed: (Plugin, Event) -> bool)
    requires EachStep(s, events, allowed) && !Always(RunFrom(s, events), holds, allowed)
    ensures !Always(s, holds, allowed)
  {
    hide RunFrom, EachStep;
    var r := RunFrom(s, events);
    var more :| EachStep(r, more, allowed) && !holds(RunFrom(r, more));
    RunsJoin(s, events, more);
    EachJoins(s, events, more, allowed);
    assert EachStep(s, events + more, allowed);
  }

  lemma FailsOneBefore(s: Plugin, e: Event, holds: Plugin -> bool, allowed: (Plugin, Event) -> bool)
    requires allowed(s, e) && !Always(Step(s, e), holds, allowed)
    ensures !Always(s, holds, allowed)
  {
    hide Step, Always, EachStep;
    assert [e][..0] == [];
    assert RunFrom(s, [e]) == Step(RunFrom(s, []), e);
    EachStepPrefix(s, [e], allowed);
    NoSteps(s, allowed);
    FailsBefore(s, [e], holds, allowed);
  }

  // When each step leads to a state from which the property always holds exactly if it is allowed, a whole run
  // does so at every point exactly if each of its events was.
  lemma {:induction false} AlwaysIffAllowed(
    s: Plugin, events: seq<Event>, kept: Plugin -> bool, holds: Plugin -> bool, allowed: (Plugin, Event) -> bool)
    requires kept(s) && Always(s, holds, allowed)
    requires forall p, e | kept(p) && allowed(p, e) :: kept(Step(p, e))
    requires forall p, e | kept(p) :: allowed(p, e) <==> Always(Step(p, e), holds, allowed)
    ensures EachStep(s, events, allowed) ==> kept(RunFrom(s, events))
    ensures EachStep(s, events, allowed) <==> forall i | 0 <= i <= |events| :: Always(RunFrom(s, events[..i]), holds, allowed)
  {
    hide Step, Always, EachStep;
    if events == [] {
      NoSteps(s, allowed);
      assert events[..0] == [];
    } else {
      var before := events[..|events| - 1];
      AlwaysIffAllowed(s, before, kept, holds, allowed);
      EachStepPrefix(s, events, allowed);
      assert forall i | 0 <= i <= |before| :: before[..i] == events[..i];
      assert events[..|events|] == events;
      if forall i | 0 <= i <= |events| :: Always(RunFrom(s, events[..i]), holds, allowed) {
        assert forall i | 0 <= i <= |before| :: Always(RunFrom(s, before[..i]), holds, allowed);
        assert Always(RunFrom(s, events[..|events|]), holds, allowed);
      }
    }
  }
}
