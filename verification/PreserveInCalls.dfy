/** The storage transport of the program answers a fetch and a removal before the call returns
    (src/logos_storage_transport.cpp:142-152), so the answer is handled inside the command that asked. Between
    such calls no CID is in the books: a preserve is never refused for a CID in flight, and an unmirror ends as
    if its answers had come later, whichever of its CIDs repeat. */
module PreserveInCalls {
  import opened Basics
  import opened Inscriptions
  import opened IaFiles
  import opened PreserveSteps
  import opened PreserveUnpins
  import PreserveQueue
  import Storage = StorageClients

  // ----- unpins -----

  function InsertPin(p: Pins, id: string, cid: string): Pins {
    p.(cidToItem := p.cidToItem[cid := id], unpinning := p.unpinning + multiset{cid})
  }

  function Insert(s: Plugin, id: string, cid: string): Plugin {
    s.(pins := InsertPin(s.pins, id, cid))
  }

  // The loop of unmirrorItem over a transport that answers each unpin before the call returns.
  function AnsweredAtOnce(s: Plugin, id: string, cids: seq<string>, answers: seq<bool>): Plugin
    requires |answers| == |cids|
  {
    if cids == [] then s
    else
      var n := |cids| - 1;
      UnpinFinished(Insert(AnsweredAtOnce(s, id, cids[..n], answers[..n]), id, cids[n]), cids[n], answers[n])
  }

  // The same answers as later events.
  function AnsweredLater(s: Plugin, cids: seq<string>, answers: seq<bool>): Plugin
    requires |answers| == |cids|
  {
    if cids == [] then s
    else
      var n := |cids| - 1;
      UnpinFinished(AnsweredLater(s, cids[..n], answers[..n]), cids[n], answers[n])
  }

  lemma TakeCommutes(p: Pins, id: string, d: string, c: string)
    requires c != d && d !in p.cidToItem
    ensures TakeUnpin(InsertPin(p, id, d), c) == InsertPin(TakeUnpin(p, c), id, d)
    ensures d !in TakeUnpin(p, c).cidToItem
    ensures OwnerOf(InsertPin(p, id, d), c) == OwnerOf(p, c)
    ensures c in InsertPin(p, id, d).unpinning <==> c in p.unpinning
    ensures TakeUnpin(InsertPin(p, id, d), c).remaining == TakeUnpin(p, c).remaining
  {
    assert p.cidToItem[d := id] - {c} == (p.cidToItem - {c})[d := id];
    assert p.unpinning + multiset{d} - multiset{c} == p.unpinning - multiset{c} + multiset{d};
  }

  lemma RemainingCommutes(p: Pins, id: string, d: string, remaining: map<string, int>)
    ensures InsertPin(p, id, d).(remaining := remaining) == InsertPin(p.(remaining := remaining), id, d)
    ensures InsertPin(p, id, d).(remaining := p.remaining) == InsertPin(p, id, d)
  {
  }

  lemma InsertCommutes(s: Plugin, id: string, d: string, c: string, ok: bool)
    requires c != d && d !in s.pins.cidToItem
    ensures UnpinFinished(Insert(s, id, d), c, ok) == Insert(UnpinFinished(s, c, ok), id, d)
    ensures d !in UnpinFinished(s, c, ok).pins.cidToItem
  {
    hide SetState, SetStored, TakeUnpin, InsertPin, OwnerOf, FilesLeft;
    TakeCommutes(s.pins, id, d, c);
    SameFilesLeft(TakeUnpin(InsertPin(s.pins, id, d), c), TakeUnpin(s.pins, c), OwnerOf(s.pins, c));
    RemainingCommutes(TakeUnpin(s.pins, c), id, d, UnpinFinished(s, c, ok).pins.remaining);
  }

  lemma SameFilesLeft(p: Pins, p': Pins, id: string)
    requires p.remaining == p'.remaining
    ensures FilesLeft(p, id) == FilesLeft(p', id) && (FilesLeft(p, id) ==> id in p.remaining)
  {
  }

  lemma {:induction false} InsertCommutesAll(s: Plugin, id: string, d: string, cids: seq<string>, answers: seq<bool>)
    requires |answers| == |cids| && d !in cids && d !in s.pins.cidToItem
    ensures AnsweredLater(Insert(s, id, d), cids, answers) == Insert(AnsweredLater(s, cids, answers), id, d)
    ensures d !in AnsweredLater(s, cids, answers).pins.cidToItem
  {
    hide UnpinFinished, InsertPin;
    if cids != [] {
      var n := |cids| - 1;
      InsertCommutesAll(s, id, d, cids[..n], answers[..n]);
      InsertCommutes(AnsweredLater(s, cids[..n], answers[..n]), id, d, cids[n], answers[n]);
    }
  }

  // Removing the files of an item over a transport that answers inside the call ends exactly as if the
  // answers had come later, failures included.
  lemma {:induction false} SynchronousAnswersAgree(s: Plugin, id: string, cids: seq<string>, answers: seq<bool>)
    requires |answers| == |cids| && NoRepeats(cids)
    requires forall c | c in cids :: c !in s.pins.cidToItem
    ensures AnsweredLater(s.(pins := StartUnpins(s.pins, id, cids)), cids, answers) == AnsweredAtOnce(s, id, cids, answers)
  {
    hide UnpinFinished;
    if cids != [] {
      var n := |cids| - 1;
      var before := cids[..n];
      DistinctFront(cids);
      SynchronousAnswersAgree(s, id, before, answers[..n]);
      var started := s.(pins := StartUnpins(s.pins, id, before));
      StartedUnpins(s.pins, id, before);
      assert s.(pins := StartUnpins(s.pins, id, cids)) == Insert(started, id, cids[n]);
      InsertCommutesAll(started, id, cids[n], before, answers[..n]);
    }
  }

  predicate AllTrue(answers: seq<bool>) {
    forall i | 0 <= i < |answers| :: answers[i]
  }

  // The row after the last answer of its item.
  predicate EndedRow(row: Row, row': Row, answers: seq<bool>)
    requires answers != []
  {
    var last := answers[|answers| - 1];
    && row'.state == (if last then Available else Failed) && row'.progress == 0
    && (last ==> row'.storedCids == [])
    && (!last && AllTrue(answers[..|answers| - 1]) ==> row'.storedCids == row.storedCids)
  }

  // `n` unpins were announced. As long as some are left and none has failed only the counter has moved; otherwise
  // the counter is gone and the row is what the last answer made it.
  predicate Unpinning(s: Plugin, r: Plugin, id: string, answers: seq<bool>, n: nat) {
    && r == s.(pins := s.pins.(remaining := r.pins.remaining), rows := r.rows)
    && (if answers == [] || (AllTrue(answers) && |answers| < n)
        then r.pins.remaining == s.pins.remaining[id := n - |answers|] && r.rows == s.rows
        else
          && r.pins.remaining == s.pins.remaining - {id}
          && (if id in s.rows
              then id in r.rows && r.rows == s.rows[id := r.rows[id]] && EndedRow(s.rows[id], r.rows[id], answers)
              else r.rows == s.rows))
  }

  lemma InsertTaken(p: Pins, id: string, cid: string)
    requires cid !in p.cidToItem
    ensures TakeUnpin(InsertPin(p, id, cid), cid) == p && OwnerOf(InsertPin(p, id, cid), cid) == id
  {
    assert p.cidToItem[cid := id] - {cid} == p.cidToItem;
    assert p.unpinning + multiset{cid} - multiset{cid} == p.unpinning;
  }

  // What an answer for the item `id` does that finds its own entry.
  function AfterAnswer(s: Plugin, id: string, ok: bool): Plugin {
    if ok && FilesLeft(s.pins, id)
    then s.(pins := s.pins.(remaining := s.pins.remaining[id := s.pins.remaining[id] - 1]))
    else s.(pins := s.pins.(remaining := s.pins.remaining - {id}),
            rows := if ok then SetState(SetStored(s.rows, id, []), id, Available) else SetState(s.rows, id, Failed))
  }

  lemma OneUnpinned(s: Plugin, id: string, cid: string, ok: bool)
    requires cid !in s.pins.cidToItem && id != ""
    ensures UnpinFinished(Insert(s, id, cid), cid, ok) == AfterAnswer(s, id, ok)
  {
    hide SetState, SetStored;
    InsertTaken(s.pins, id, cid);
    hide TakeUnpin, OwnerOf;
    assert cid in InsertPin(s.pins, id, cid).unpinning;
  }

  lemma OneMoreTrue(answers: seq<bool>)
    requires answers != []
    ensures AllTrue(answers) <==> AllTrue(answers[..|answers| - 1]) && answers[|answers| - 1]
  {
  }

  lemma AnswerCounted(s: Plugin, m: Plugin, id: string, answers: seq<bool>, n: nat)
    requires answers != [] && |answers| < n && AllTrue(answers) && Unpinning(s, m, id, answers[..|answers| - 1], n)
    requires id in s.pins.remaining && s.pins.remaining[id] == n
    ensures Unpinning(s, AfterAnswer(m, id, true), id, answers, n)
  {
    hide AllTrue, EndedRow, SetState, SetStored;
    OneMoreTrue(answers);
  }

  lemma AnswerEnds(s: Plugin, m: Plugin, id: string, answers: seq<bool>, n: nat)
    requires answers != [] && |answers| <= n && !(AllTrue(answers) && |answers| < n)
    requires Unpinning(s, m, id, answers[..|answers| - 1], n) && id in s.pins.remaining && s.pins.remaining[id] == n
    ensures Unpinning(s, AfterAnswer(m, id, answers[|answers| - 1]), id, answers, n)
  {
    hide AllTrue;
    OneMoreTrue(answers);
    NoneFalse();
    assert m.pins.remaining - {id} == s.pins.remaining - {id};
  }

  lemma AnswerAdded(s: Plugin, m: Plugin, id: string, answers: seq<bool>, n: nat)
    requires answers != [] && |answers| <= n && Unpinning(s, m, id, answers[..|answers| - 1], n)
    requires id in s.pins.remaining && s.pins.remaining[id] == n
    ensures Unpinning(s, AfterAnswer(m, id, answers[|answers| - 1]), id, answers, n)
  {
    hide Unpinning, AfterAnswer;
    if AllTrue(answers) && |answers| < n {
      AnswerCounted(s, m, id, answers, n);
    } else {
      AnswerEnds(s, m, id, answers, n);
    }
  }

  lemma NoneFalse()
    ensures AllTrue([])
  {
  }

  lemma {:induction false} AnsweredSoFar(s: Plugin, id: string, cids: seq<string>, answers: seq<bool>, n: nat)
    requires |answers| == |cids| <= n && id in s.pins.remaining && s.pins.remaining[id] == n && id != ""
    requires forall c | c in cids :: c !in s.pins.cidToItem
    ensures Unpinning(s, AnsweredAtOnce(s, id, cids, answers), id, answers, n)
  {
    if cids == [] {
      assert s.pins.remaining[id := n] == s.pins.remaining;
    } else {
      hide Unpinning, UnpinFinished, Insert;
      var k := |cids| - 1;
      AnsweredSoFar(s, id, cids[..k], answers[..k], n);
      var m := AnsweredAtOnce(s, id, cids[..k], answers[..k]);
      SameBooks(s, m, id, answers[..k], n);
      OneUnpinned(m, id, cids[k], answers[k]);
      AnswerAdded(s, m, id, answers, n);
    }
  }

  lemma SameBooks(s: Plugin, m: Plugin, id: string, answers: seq<bool>, n: nat)
    requires Unpinning(s, m, id, answers, n)
    ensures m.pins.cidToItem == s.pins.cidToItem
  {
    hide AllTrue, EndedRow;
  }

  // An accepted unmirror whose removals are answered in the call.
  function UnmirrorAtOnce(s: Plugin, id: string, answers: seq<bool>): Plugin
    requires |answers| == |StoredBy(s, id)|
  {
    AnsweredAtOnce(s.(pins := s.pins.(remaining := s.pins.remaining[id := |StoredBy(s, id)|])), id, StoredBy(s, id), answers)
  }

  // When all removals succeed the item is freed, repeated CIDs or not; otherwise the last answer decides. Nothing
  // of the unmirror is left in the books.
  lemma UnmirroredAtOnce(s: Plugin, id: string, answers: seq<bool>)
    requires UnmirrorCode(s, id) == Done && "" !in s.rows && |answers| == |StoredBy(s, id)|
    ensures var r := UnmirrorAtOnce(s, id, answers);
            && r == s.(pins := s.pins.(remaining := s.pins.remaining - {id}), rows := r.rows)
            && id in s.rows && id in r.rows && r.rows == s.rows[id := r.rows[id]]
            && EndedRow(s.rows[id], r.rows[id], answers)
            && (AllTrue(answers) ==> r.rows[id] == Row(Available, 0, []))
  {
    hide AnsweredAtOnce;
    var n := |StoredBy(s, id)|;
    var s1 := s.(pins := s.pins.(remaining := s.pins.remaining[id := n]));
    assert id in s.rows;
    AnsweredSoFar(s1, id, StoredBy(s, id), answers, n);
    assert s1.pins.remaining - {id} == s.pins.remaining - {id};
  }

  // The unmirror of a file stored twice: one entry, two removals asked for.
  lemma BothAsked(s: Plugin, id: string, cid: string)
    requires UnmirrorCode(s, id) == Done && StoredBy(s, id) == [cid, cid]
    ensures var p := s.pins.(remaining := s.pins.remaining[id := 2]);
            Step(s, Unmirror(id)) == s.(pins := InsertPin(InsertPin(p, id, cid), id, cid))
  {
    hide UnmirrorCode, StoredBy;
    assert [cid, cid][..1] == [cid] && [cid][..0] == [];
    var p := s.pins.(remaining := s.pins.remaining[id := 2]);
    assert StartUnpins(p, id, [cid]) == InsertPin(StartUnpins(p, id, []), id, cid);
    assert StartUnpins(p, id, [cid, cid]) == InsertPin(StartUnpins(p, id, [cid]), id, cid);
  }

  // With a transport that answers later a repeated CID is never freed: its first answer takes the entry of both,
  // and the second finds nobody.
  lemma RepeatedCidNeverFreed(s: Plugin, id: string, cid: string)
    requires UnmirrorCode(s, id) == Done && StoredBy(s, id) == [cid, cid] && "" !in s.rows
    requires cid !in s.pins.unpinning
    ensures var r := Step(Step(Step(s, Unmirror(id)), UnpinDone(cid, true)), UnpinDone(cid, true));
            && r.rows == s.rows && cid !in r.pins.unpinning && cid !in r.pins.cidToItem
            && id in r.pins.remaining && r.pins.remaining[id] == 1
  {
    BothAsked(s, id, cid);
    assert id != "";
    hide UnmirrorCode, StoredBy, SetState, SetStored, UnmirrorItem;
    var s2 := Step(Step(s, Unmirror(id)), UnpinDone(cid, true));
    assert s2.rows == s.rows && s2.pins.remaining == s.pins.remaining[id := 1] && cid !in s2.pins.cidToItem;
    assert s2.pins.unpinning[cid] == 1;
  }

  // ----- commands with their answers -----

  // A command or event together with the answers storage gives inside it: to a pin, and to the removals in turn.
  datatype Call = Call(e: Event, pinOk: bool, removals: nat -> bool)

  ghost function CallStep(s: Plugin, call: Call): Plugin {
    if call.e.Unmirror? then
      if UnmirrorCode(s, call.e.id) != Done then s
      else UnmirrorAtOnce(s, call.e.id, seq(|StoredBy(s, call.e.id)|, i requires 0 <= i => call.removals(i)))
    else
      var r := Step(s, call.e);
      if r.pins.pinning <= s.pins.pinning then r
      else
        var cid :| cid in r.pins.pinning && cid !in s.pins.pinning;
        Step(r, PinDone(cid, call.pinOk))
  }

  ghost function RunCalls(s: Plugin, calls: seq<Call>): Plugin {
    if calls == [] then s else CallStep(RunCalls(s, calls[..|calls| - 1]), calls[|calls| - 1])
  }

  // One CID more than nothing in the books.
  predicate OnePin(p: Pins) {
    && p.remaining == map[] && p.unpinning == multiset{} && |p.pinning| == 1
    && p.cidToItem.Keys == p.pinning
  }

  lemma MirrorPinsOne(s: Plugin, id: string)
    requires s.pins == NO_PINS
    ensures MirrorItem(s, id).pins == NO_PINS || OnePin(MirrorItem(s, id).pins)
  {
    hide ArchiveId, FromArchive;
  }

  lemma DrainPinsOne(s: Plugin)
    requires s.pins == NO_PINS
    ensures DrainAutoQueue(s).pins == NO_PINS || OnePin(DrainAutoQueue(s).pins)
  {
    hide MirrorItem, OnePin;
    if Idle(s) && Skipped(s.rows, s.queue) < |s.queue| {
      var n := Skipped(s.rows, s.queue);
      MirrorPinsOne(s.(queue := s.queue[n + 1..]), s.queue[n]);
    }
  }

  lemma StepPinsOne(s: Plugin, e: Event)
    requires s.pins == NO_PINS && !e.Unmirror?
    ensures Step(s, e).pins == NO_PINS || OnePin(Step(s, e).pins)
  {
    hide DrainAutoQueue, MirrorItem, OnePin, DownloadReply, UploadFinished, WithinCap, Wanted, EnqueueAll, Choose,
      WithoutId, Percent, FilePercent;
    match e
    case Mirror(id) => MirrorPinsOne(s, id);
    case HealthTick => DrainPinsOne(s);
    case AutoOn(listing) => DrainPinsOne(s.(queue := EnqueueAll(s.queue, Choose(listing, x => Wanted(s, x)))));
    case Discover(autoOn, ids) =>
      var s1 := WithRows(s, ids);
      DrainPinsOne(s1.(queue := if autoOn then EnqueueAll(s1.queue, Choose(ids, x => x in s1.rows && WithinCap(s1, x)))
                                else s1.queue));
    case Reply(token, ok, body, content, accepted) => ReplyKeepsPins(s, token, ok, body, content, accepted);
    case UploadDone(ok, cid) => UploadKeepsPins(s.(uploading := false), ok, cid);
    case _ =>
  }

  lemma OnePinAnswered(s: Plugin, cid: string, ok: bool)
    requires OnePin(s.pins) && cid in s.pins.pinning
    ensures PinFinished(s, cid, ok).pins == NO_PINS
  {
    hide ReseedRefused, CandidatesFor, SetState;
    assert s.pins.pinning - {cid} == {} by {
      assert |s.pins.pinning - {cid}| == 0;
    }
    assert s.pins.cidToItem - {cid} == map[];
  }

  // Between commands nothing is in flight.
  lemma CallLeavesNothing(s: Plugin, call: Call)
    requires s.pins == NO_PINS && "" !in s.rows
    ensures CallStep(s, call).pins == NO_PINS && "" !in CallStep(s, call).rows
  {
    hide UnmirrorAtOnce, Step, OnePin;
    if call.e.Unmirror? {
      if UnmirrorCode(s, call.e.id) == Done {
        UnmirroredAtOnce(s, call.e.id, seq(|StoredBy(s, call.e.id)|, i requires 0 <= i => call.removals(i)));
        assert s.pins.remaining - {call.e.id} == s.pins.remaining;
      }
    } else {
      var r := Step(s, call.e);
      StepPinsOne(s, call.e);
      NoEmptyRow(s, call.e);
      if !(r.pins.pinning <= s.pins.pinning) {
        var cid :| cid in r.pins.pinning && cid !in s.pins.pinning && CallStep(s, call) == Step(r, PinDone(cid, call.pinOk));
        Answered(r, cid, call.pinOk);
      } else {
        NoneMeansNone(r);
      }
    }
  }

  lemma Answered(r: Plugin, cid: string, ok: bool)
    requires OnePin(r.pins) && cid in r.pins.pinning && "" !in r.rows
    ensures Step(r, PinDone(cid, ok)).pins == NO_PINS && "" !in Step(r, PinDone(cid, ok)).rows
  {
    hide PinFinished, OnePin;
    OnePinAnswered(r, cid, ok);
    NoEmptyRow(r, PinDone(cid, ok));
  }

  lemma NoneMeansNone(s: Plugin)
    requires s.pins == NO_PINS || OnePin(s.pins)
    ensures s.pins.pinning <= {} ==> s.pins == NO_PINS
  {
  }

  // So for every process over such a transport, whatever commands, ticks and replies come and however storage
  // answers: between them no CID is in flight, no preserve is refused for one, and the only entry a drain drops
  // is one without an archive source.
  lemma {:induction false} NothingInFlight(catalog: Catalog, saved: Rows, calls: seq<Call>)
    ensures var s := RunCalls(Boot(catalog, saved), calls);
            && s.pins == NO_PINS && "" !in s.rows
            && (forall id :: PreserveQueue.Refuses(s, id) <==>
                  FromArchive(SourceOf(s, id).cid) && ArchiveId(SourceOf(s, id)) == "")
            && (forall id :: !FromArchive(SourceOf(s, id).cid) && s.storage == Storage.Ready ==> MirrorCode(s, id) == Done)
  {
    hide CallStep, Boot;
    if calls == [] {
      BootHasNone(catalog, saved);
    } else {
      NothingInFlight(catalog, saved, calls[..|calls| - 1]);
      CallLeavesNothing(RunCalls(Boot(catalog, saved), calls[..|calls| - 1]), calls[|calls| - 1]);
    }
    OnlyWithoutSource(RunCalls(Boot(catalog, saved), calls));
  }

  lemma BootHasNone(catalog: Catalog, saved: Rows)
    ensures Boot(catalog, saved).pins == NO_PINS && "" !in Boot(catalog, saved).rows
  {
  }

  lemma OnlyWithoutSource(s: Plugin)
    requires s.pins == NO_PINS
    ensures forall id :: PreserveQueue.Refuses(s, id) <==>
              FromArchive(SourceOf(s, id).cid) && ArchiveId(SourceOf(s, id)) == ""
    ensures forall id :: !FromArchive(SourceOf(s, id).cid) && s.storage == Storage.Ready ==> MirrorCode(s, id) == Done
  {
    hide ArchiveId, FromArchive;
  }
}
