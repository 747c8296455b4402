/** How each course ends. What is said here is said of the rows and of whole courses of events: a pin that succeeds
    mirrors its row whatever runs beside it, a re-seed tries its candidates in turn, a preserve that breaks off
    fails or waits, and rows and queue change for the stated reasons only. */
module PreserveCourses {
  import opened Basics
  import opened Inscriptions
  import opened IaFiles
  import opened PreserveSteps
  import opened PreserveRuns
  import opened PreserveServed
  import PreserveQueue
  import PreserveUnpins
  import Labels
  import Storage = StorageClients

  // ----- pins -----

  // A pin that succeeds mirrors its row, whatever else runs, and touches no other.
  lemma PinSucceeds(s: Plugin, cid: string)
    requires cid in s.pins.pinning && cid in s.pins.cidToItem && s.pins.cidToItem[cid] in s.rows
    ensures var id, r := s.pins.cidToItem[cid], Step(s, PinDone(cid, true));
            && r.rows == s.rows[id := Row(Mirrored, 0, s.rows[id].storedCids)]
            && cid !in r.pins.cidToItem && cid !in r.pins.pinning
            && r == s.(rows := r.rows, pins := r.pins)
  {
  }

  // The pin of the item is under way.
  predicate PinUnderWay(s: Plugin, id: string, cid: string) {
    && id in s.rows && id in s.catalog && s.catalog[id].cid == cid
    && cid in s.pins.pinning && cid in s.pins.cidToItem && s.pins.cidToItem[cid] == id
  }

  // The event neither answers for the CID nor takes the row away.
  predicate Spares(s: Plugin, e: Event, id: string, cid: string) {
    match e
    case PinDone(c, _) => c != cid
    case UnpinDone(c, _) => c != cid
    case RemoveRow(x) => x != id
    case RemoveAll => false
    case Unfollow(channelId) => !(id in s.catalog && s.catalog[id].channelId == channelId)
    case Restart(_) => false
    case _ => true
  }

  lemma MirrorLeavesPin(s: Plugin, x: string, id: string, cid: string)
    requires PinUnderWay(s, id, cid)
    ensures PinUnderWay(MirrorItem(s, x), id, cid)
  {
    hide ArchiveId, FromArchive;
  }

  lemma DrainLeavesPin(s: Plugin, id: string, cid: string)
    requires PinUnderWay(s, id, cid)
    ensures PinUnderWay(DrainAutoQueue(s), id, cid)
  {
    hide MirrorItem;
    if Idle(s) && Skipped(s.rows, s.queue) < |s.queue| {
      var n := Skipped(s.rows, s.queue);
      MirrorLeavesPin(s.(queue := s.queue[n + 1..]), s.queue[n], id, cid);
    }
  }

  lemma UnmirrorLeavesPin(s: Plugin, x: string, id: string, cid: string)
    requires PinUnderWay(s, id, cid)
    ensures PinUnderWay(UnmirrorItem(s, x), id, cid)
  {
    hide StartUnpins;
    if UnmirrorCode(s, x) == Done {
      var cids := StoredBy(s, x);
      PreserveUnpins.StartedUnpins(s.pins.(remaining := s.pins.remaining[x := |cids|]), x, cids);
    }
  }

  lemma UploadLeavesPin(s: Plugin, ok: bool, answer: string, id: string, cid: string)
    requires PinUnderWay(s, id, cid)
    ensures PinUnderWay(UploadFinished(s, ok, answer), id, cid)
  {
    PreserveUnpins.UploadKeepsPins(s, ok, answer);
    PreserveUnpins.UploadRows(s, ok, answer);
    UploadKeepsCatalog(s, ok, answer);
    hide UploadFinished;
  }

  lemma UploadKeepsCatalog(s: Plugin, ok: bool, cid: string)
    ensures UploadFinished(s, ok, cid).catalog == s.catalog
  {
    hide SetState, SetStored, Enqueue;
  }

  lemma ReplyKeepsCatalog(s: Plugin, token: nat, ok: bool, body: seq<Token>, content: Option<Digests>, accepted: bool)
    ensures DownloadReply(s, token, ok, body, content, accepted).catalog == s.catalog
  {
    hide Parsed, SumSizes, VerifyIaFile, SetState, SetStored, UploadFinished;
    forall p, good, cid ensures UploadFinished(p, good, cid).catalog == p.catalog {
      UploadKeepsCatalog(p, good, cid);
    }
  }

  lemma ReplyLeavesPin(s: Plugin, e: Event, id: string, cid: string)
    requires PinUnderWay(s, id, cid) && (e.Reply? || e.UploadDone?)
    ensures PinUnderWay(Step(s, e), id, cid)
  {
    hide UploadFinished, DownloadReply;
    if e.Reply? {
      PreserveUnpins.ReplyKeepsPins(s, e.token, e.ok, e.body, e.content, e.accepted);
      PreserveUnpins.ReplyRows(s, e.token, e.ok, e.body, e.content, e.accepted);
      ReplyKeepsCatalog(s, e.token, e.ok, e.body, e.content, e.accepted);
    } else if s.uploading {
      UploadLeavesPin(s.(uploading := false), e.ok, e.cid, id, cid);
    }
  }

  lemma PinLeavesPin(s: Plugin, c: string, ok: bool, id: string, cid: string)
    requires PinUnderWay(s, id, cid) && c != cid
    ensures PinUnderWay(PinFinished(s, c, ok), id, cid)
  {
    hide ReseedRefused, CandidatesFor, OwnerOf;
  }

  lemma UnpinLeavesPin(s: Plugin, c: string, ok: bool, id: string, cid: string)
    requires PinUnderWay(s, id, cid) && c != cid
    ensures PinUnderWay(UnpinFinished(s, c, ok), id, cid)
  {
    hide FilesLeft, OwnerOf;
  }

  lemma StepLeavesPin(s: Plugin, e: Event, id: string, cid: string)
    requires PinUnderWay(s, id, cid) && Spares(s, e, id, cid)
    ensures PinUnderWay(Step(s, e), id, cid)
  {
    hide DownloadReply, UploadFinished, PinFinished, UnpinFinished, UnmirrorItem, MirrorItem, DrainAutoQueue, WithoutId,
      EnqueueAll, Choose, WithinCap, Wanted, Percent, FilePercent;
    match e
    case Mirror(x) => MirrorLeavesPin(s, x, id, cid);
    case Unmirror(x) => UnmirrorLeavesPin(s, x, id, cid);
    case AutoOn(listing) => DrainLeavesPin(s.(queue := EnqueueAll(s.queue, Choose(listing, x => Wanted(s, x)))), id, cid);
    case Discover(autoOn, ids) =>
      var s1 := WithRows(s, ids);
      DrainLeavesPin(
        s1.(queue := if autoOn then EnqueueAll(s1.queue, Choose(ids, x => x in s1.rows && WithinCap(s1, x))) else s1.queue),
        id, cid);
    case HealthTick => DrainLeavesPin(s, id, cid);
    case Reply(_, _, _, _, _) => ReplyLeavesPin(s, e, id, cid);
    case UploadDone(_, _) => ReplyLeavesPin(s, e, id, cid);
    case PinDone(c, ok) => PinLeavesPin(s, c, ok, id, cid);
    case UnpinDone(c, ok) => UnpinLeavesPin(s, c, ok, id, cid);
    case _ =>
  }

  lemma {:induction false} PinStays(s: Plugin, events: seq<Event>, id: string, cid: string)
    requires PinUnderWay(s, id, cid) && EachStep(s, events, (p: Plugin, e: Event) => Spares(p, e, id, cid))
    ensures PinUnderWay(RunFrom(s, events), id, cid)
    decreases |events|
  {
    hide PinUnderWay, Spares, Step, EachStep;
    if events != [] {
      EachStepPrefix(s, events, (p: Plugin, e: Event) => Spares(p, e, id, cid));
      PinStays(s, events[..|events| - 1], id, cid);
      StepLeavesPin(RunFrom(s, events[..|events| - 1]), events[|events| - 1], id, cid);
    }
  }

  // An accepted preserve of an item with a CID shows it mirroring; whatever happens then, short of an answer for
  // that CID or the row's removal - other preserves, cancellations and failures included - the answer that comes
  // decides: mirrored when it is good, and otherwise failed or re-seeded.
  lemma PinnedItemEndsMirrored(s: Plugin, id: string, events: seq<Event>)
    requires MirrorCode(s, id) == Done && id in s.rows && id in s.catalog && !FromArchive(s.catalog[id].cid)
    requires EachStep(Step(s, Mirror(id)), events, (p: Plugin, e: Event) => Spares(p, e, id, s.catalog[id].cid))
    ensures var cid, m := s.catalog[id].cid, Step(s, Mirror(id));
            var r := RunFrom(m, events);
            var good, bad := Step(r, PinDone(cid, true)), Step(r, PinDone(cid, false));
            && id in m.rows && m.rows[id] == s.rows[id].(state := Mirroring, progress := 0)
            && id in r.rows && id in good.rows && id in bad.rows
            && good.rows == r.rows[id := Row(Mirrored, 0, r.rows[id].storedCids)]
            && (if ReseedRefused(r, id) then bad.rows == r.rows[id := Row(Failed, 0, r.rows[id].storedCids)]
                else bad.reseed.item == id && bad.rows == r.rows)
  {
    hide RunFrom, EachStep, ReseedRefused, Spares;
    var cid, m := s.catalog[id].cid, Step(s, Mirror(id));
    PinStarts(s, id);
    PinStays(m, events, id, cid);
    var r := RunFrom(m, events);
    PinSucceeds(r, cid);
    PinFailsTo(r, id, cid);
  }

  lemma PinStarts(s: Plugin, id: string)
    requires MirrorCode(s, id) == Done && id in s.rows && id in s.catalog && !FromArchive(s.catalog[id].cid)
    ensures var m := Step(s, Mirror(id));
            && PinUnderWay(m, id, s.catalog[id].cid) && id in m.rows
            && m.rows[id] == s.rows[id].(state := Mirroring, progress := 0)
  {
    hide ArchiveId, FromArchive;
  }

  lemma PinFailsTo(s: Plugin, id: string, cid: string)
    requires PinUnderWay(s, id, cid)
    ensures var r := Step(s, PinDone(cid, false));
            if ReseedRefused(s, id) then r.rows == s.rows[id := Row(Failed, 0, s.rows[id].storedCids)]
            else r.reseed.item == id && r.rows == s.rows
  {
    hide NoFile, Labels.Candidates;
    var s1 := s.(pins := s.pins.(cidToItem := s.pins.cidToItem - {cid}, pinning := s.pins.pinning - {cid}));
    SameCandidates(s, s1, id);
  }

  // ----- re-seeds -----

  // The k-th candidate is being downloaded, under token `first` + k.
  predicate Trying(s: Plugin, id: string, candidates: seq<string>, first: nat, k: nat) {
    && k < |candidates| && s.reseed.item == id && s.reseed.candidates == candidates[k + 1..]
    && s.nextDownload == first + k + 1
    && first + k in s.downloads && s.downloads[first + k] == CandidateTask(id, Labels.Decode(candidates[k]))
  }

  // k downloads fail one after another.
  function Failing(first: nat, k: nat): seq<Event> {
    if k == 0 then [] else Failing(first, k - 1) + [Reply(first + k - 1, false, [], None, false)]
  }

  lemma NextTried(s: Plugin, id: string, candidates: seq<string>, first: nat, k: nat)
    requires Trying(s, id, candidates, first, k)
    ensures var r := Step(s, Reply(first + k, false, [], None, false));
            && r.ia == s.ia && r.uploading == s.uploading && r.pins == s.pins
            && (if k + 1 < |candidates| then Trying(r, id, candidates, first, k + 1) && r.rows == s.rows
                else r.reseed.item == "" && (id in s.rows ==> r.rows == s.rows[id := Row(Failed, 0, s.rows[id].storedCids)]))
  {
    hide Labels.Decode;
    assert k + 1 < |candidates| ==> candidates[k + 1..][0] == candidates[k + 1] && candidates[k + 1..][1..] == candidates[k + 2..];
  }

  lemma {:induction false} TriedInTurn(s: Plugin, id: string, candidates: seq<string>, first: nat, k: nat)
    requires Trying(s, id, candidates, first, 0) && k < |candidates|
    ensures var r := RunFrom(s, Failing(first, k));
            Trying(r, id, candidates, first, k) && r.rows == s.rows && r.ia == s.ia && r.uploading == s.uploading
  {
    hide Step, Trying;
    if k > 0 {
      TriedInTurn(s, id, candidates, first, k - 1);
      var e := Reply(first + k - 1, false, [], None, false);
      assert Failing(first, k)[..k - 1] == Failing(first, k - 1) by { FailingLength(first, k - 1); }
      FailingLength(first, k);
      NextTried(RunFrom(s, Failing(first, k - 1)), id, candidates, first, k - 1);
    }
  }

  lemma {:induction false} FailingLength(first: nat, k: nat)
    ensures |Failing(first, k)| == k && (k > 0 ==> Failing(first, k)[k - 1] == Reply(first + k - 1, false, [], None, false))
  {
    if k > 0 {
      FailingLength(first, k - 1);
    }
  }

  // A failed pin starts the first of the item's candidates, and each download that fails the next one. When all
  // have failed so has the item, after exactly as many downloads as there were candidates.
  lemma ReseedTriesInTurn(s: Plugin, cid: string, k: nat)
    requires cid in s.pins.pinning && cid in s.pins.cidToItem && s.pins.cidToItem[cid] in s.rows
    requires !ReseedRefused(s, s.pins.cidToItem[cid]) && k < |CandidatesFor(s, s.pins.cidToItem[cid])|
    ensures var id := s.pins.cidToItem[cid]; var candidates := CandidatesFor(s, id);
            var r := RunFrom(Step(s, PinDone(cid, false)), Failing(s.nextDownload, k));
            var f := Step(r, Reply(s.nextDownload + k, false, [], None, false));
            && Trying(r, id, candidates, s.nextDownload, k) && r.rows == s.rows
            && (k + 1 == |candidates| ==>
                  f.reseed.item == "" && f.rows == s.rows[id := Row(Failed, 0, s.rows[id].storedCids)])
  {
    hide RunFrom, Trying, CandidatesFor, ReseedRefused, Step;
    var id := s.pins.cidToItem[cid];
    FirstTried(s, cid);
    TriedInTurn(Step(s, PinDone(cid, false)), id, CandidatesFor(s, id), s.nextDownload, k);
    NextTried(RunFrom(Step(s, PinDone(cid, false)), Failing(s.nextDownload, k)), id, CandidatesFor(s, id), s.nextDownload, k);
  }

  lemma FirstTried(s: Plugin, cid: string)
    requires cid in s.pins.pinning && cid in s.pins.cidToItem && !ReseedRefused(s, s.pins.cidToItem[cid])
    ensures var id := s.pins.cidToItem[cid]; var r := Step(s, PinDone(cid, false));
            && Trying(r, id, CandidatesFor(s, id), s.nextDownload, 0)
            && r.rows == s.rows && r.ia == s.ia && r.uploading == s.uploading
  {
    hide NoFile, Labels.Candidates, Labels.Decode;
    var id := s.pins.cidToItem[cid];
    var s1 := s.(pins := s.pins.(cidToItem := s.pins.cidToItem - {cid}, pinning := s.pins.pinning - {cid}));
    SameCandidates(s, s1, id);
    var r := Step(s, PinDone(cid, false));
    assert CandidatesFor(s, id)[1..] == r.reseed.candidates;
  }

  // With no item preserve under way, a candidate that arrives is handed to storage: kept, the item is mirrored;
  // not kept, or refused, it has failed. Either way the re-seed is over.
  lemma ReseedEnds(s: Plugin, id: string, candidates: seq<string>, first: nat, k: nat, accepted: bool, ok: bool, cid: string)
    requires Trying(s, id, candidates, first, k) && s.ia.item == "" && !s.uploading && id in s.rows && id != ""
    ensures var r := Step(s, Reply(first + k, true, [], None, accepted));
            var d := Step(r, UploadDone(ok, cid));
            if !accepted then r.reseed.item == "" && r.rows == s.rows[id := Row(Failed, 0, s.rows[id].storedCids)]
            else
              && r.uploading && r.rows == s.rows && r.reseed.item == id
              && d.reseed.item == "" && !d.uploading
              && d.rows == s.rows[id := Row(if ok then Mirrored else Failed, 0, s.rows[id].storedCids)]
  {
    hide Labels.Decode;
  }

  // ----- an item preserve that breaks off -----

  // What ends the download of the current file badly, and how the row is left.
  predicate FileLost(s: Plugin, e: Event) {
    && e.Reply? && e.token == s.ia.tracked
    && (!e.ok || (s.ia.idx < |s.ia.files| && !Passing(e.content, s.ia.files[s.ia.idx])))
  }

  predicate FileRefused(s: Plugin, e: Event) {
    && e.Reply? && e.token == s.ia.tracked && e.ok && !e.accepted
    && s.ia.idx < |s.ia.files| && Passing(e.content, s.ia.files[s.ia.idx])
  }

  // The run is over and its row says so.
  predicate LeftIn(s: Plugin, r: Plugin, state: ItemState) {
    && r.ia.item == "" && r.completed == s.completed && r.downloads == s.downloads - {s.ia.tracked}
    && (s.ia.item in s.rows ==>
          r.rows == s.rows[s.ia.item := Row(state, 0, s.rows[s.ia.item].storedCids)])
    && (if state == Pending then s.ia.item in r.queue && s.queue <= r.queue else r.queue == s.queue)
  }

  // A file that cannot be fetched or does not match its checksum fails the item; one that storage does not take, at
  // once or in the end, leaves it pending and queued.
  lemma FileBreaksOff(s: Plugin, e: Event, cid: string)
    requires Fetching(s) && e.Reply?
    ensures FileLost(s, e) ==> LeftIn(s, Step(s, e), Failed)
    ensures FileRefused(s, e) ==> LeftIn(s, Step(s, e), Pending)
    ensures e.token == s.ia.tracked && e.ok && e.accepted && Passing(e.content, s.ia.files[s.ia.idx]) ==>
              LeftIn(s, Step(Step(s, e), UploadDone(false, cid)), Pending)
  {
    hide VerifyIaFile, Passing;
  }

  // So does an item that is served up to there, however many files came before: from an idle machine, after the
  // first |cids| of its files, the next one decides.
  lemma ItemBreaksOff(s: Plugin, id: string, body: seq<Token>, contents: seq<Option<Digests>>, cids: seq<string>,
                      e: Event, cid: string)
    requires Idle(s) && !s.uploading && id in s.rows && Retryable(s.catalog, id) && id != ""
    requires Parsed(body) != [] && |contents| == |cids| < |Parsed(body)|
    requires forall i | 0 <= i < |cids| :: cids[i] != "" && Passing(contents[i], Parsed(body)[i])
    requires e.Reply? && e.token == s.nextDownload + 1 + |cids|
    ensures var r := RunFrom(s, ServeItem(s, id, body, contents, cids)); var file := Parsed(body)[|cids|];
            && r.ia.item == id && r.ia.stored == cids
            && (!e.ok || !Passing(e.content, file) ==> LeftIn(r, Step(r, e), Failed))
            && (e.ok && Passing(e.content, file) && !e.accepted ==> LeftIn(r, Step(r, e), Pending))
            && (e.ok && Passing(e.content, file) && e.accepted ==>
                  LeftIn(r, Step(Step(r, e), UploadDone(false, cid)), Pending))
  {
    hide Idle, Retryable, Fetching, Untouched, RunFrom, EachStep, VerifyIaFile, Passing, Step, Parsed, ServeFiles, LeftIn;
    var start := [Mirror(id), Reply(s.nextDownload, true, body, None, true)];
    StartServed(s, id);
    var s1 := Step(s, Mirror(id));
    ManifestServed(s1, body);
    var s2 := Step(s1, Reply(s.nextDownload, true, body, None, true));
    TwoSteps(s, start[0], start[1]);
    FilesServed(s2, contents, cids);
    assert [] + cids == cids;
    RunsJoin(s, start, ServeFiles(s.nextDownload + 1, contents, cids));
    FileBreaksOff(RunFrom(s, ServeItem(s, id, body, contents, cids)), e, cid);
  }

  // Without a manifest, or with one that lists no file, the item fails.
  lemma ManifestBreaksOff(s: Plugin, ok: bool, body: seq<Token>)
    requires s.ia.item != "" && s.ia.tracked in s.downloads && s.downloads[s.ia.tracked].ManifestTask?
    requires !ok || Parsed(body) == []
    ensures LeftIn(s, Step(s, Reply(s.ia.tracked, ok, body, None, false)), Failed)
  {
    hide Parsed;
  }

  // ----- which archive item is fetched -----

  // The archive item an inscription names: in its CID "ia:…", else beside it.
  predicate NamesArchive(source: Source, x: string) {
    x != "" && (source.cid == "ia:" + x || ((source.cid == "" || source.cid == "ia:") && source.iaId == x))
  }

  // A preserve fetches the manifest of exactly that archive item, and then its first listed file from there.
  lemma FetchesTheNamedArchive(s: Plugin, id: string, x: string, body: seq<Token>)
    requires Idle(s) && id in s.rows && id in s.catalog && id != "" && NamesArchive(s.catalog[id], x)
    ensures var m := Step(s, Mirror(id)); var r := Step(m, Reply(s.nextDownload, true, body, None, true));
            && m.downloads == s.downloads[s.nextDownload := ManifestTask(x)]
            && (Parsed(body) != [] ==>
                  && s.nextDownload + 1 in r.downloads
                  && r.downloads[s.nextDownload + 1] == FileTask(x, Parsed(body)[0], id))
  {
    hide Parsed, SumSizes;
    var cid := s.catalog[id].cid;
    assert ("ia:" + x)[3..] == x && "ia:"[3..] == "";
    assert cid == "ia:" + x ==> StartsWith(cid, "ia:");
    assert ArchiveId(SourceOf(s, id)) == x;
  }

  // ----- cancelling -----

  // A cancelled item is available, out of the queue and not running; a late answer to its download does nothing.
  lemma AbortedIsFree(s: Plugin, id: string, ok: bool, body: seq<Token>, content: Option<Digests>, accepted: bool)
    requires id != ""
    ensures var r := Step(s, Abort(id));
            && (id in s.rows ==> r.rows == s.rows[id := Row(Available, 0, s.rows[id].storedCids)])
            && id !in r.queue && (forall x | x in s.queue && x != id :: x in r.queue) && r.ia.item != id
            && (s.ia.item == id ==> Step(r, Reply(s.ia.tracked, ok, body, content, accepted)) == r)
            && (s.ia.item != id ==> r.ia == s.ia && r.downloads == s.downloads)
  {
    OthersStayQueued(s.queue, id);
    hide WithoutId;
    if s.ia.item == id {
      assert s.ia.tracked !in Step(s, Abort(id)).downloads;
    }
  }

  lemma OthersStayQueued(queue: seq<string>, id: string)
    ensures id !in WithoutId(queue, id) && forall x | x in queue && x != id :: x in WithoutId(queue, id)
  {
    hide WithoutId;
    PreserveQueue.WithoutIdIs(queue, id);
    forall x | x in queue && x != id ensures x in WithoutId(queue, id) {
      PreserveQueue.WithoutOther(queue, id, x);
    }
  }
}
