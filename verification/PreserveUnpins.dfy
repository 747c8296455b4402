/** Removing what a preserve stored. The counter of an item is the number of its unpins still outstanding,
    in every run, unless an unmirror starts over repeated CIDs or beside its own leftovers, or an unpin fails
    while others of the item are outstanding; those are exactly the steps that break it. An item becomes
    available at its last answer and never earlier. */
module PreserveUnpins {
  import opened Basics
  import opened Inscriptions
  import opened IaFiles
  import opened PreserveSteps

  // The outstanding unpins of an item.
  function Waiting(p: Pins, id: string): set<string> {
    set c | c in p.unpinning && c in p.cidToItem && p.cidToItem[c] == id
  }

  predicate Mapped(p: Pins) {
    forall c | c in p.unpinning ::
      p.unpinning[c] == 1 && c in p.cidToItem && p.cidToItem[c] in p.remaining
  }

  predicate Counted(p: Pins) {
    "" !in p.remaining && forall id | id in p.remaining :: p.remaining[id] == |Waiting(p, id)| > 0
  }

  predicate UnpinLaw(p: Pins) {
    Mapped(p) && Counted(p)
  }

  // What keeps the counters true: an unmirror that is accepted has distinct CIDs and no unpin of the item
  // under way; a failed unpin was the last one of its item.
  predicate Orderly(s: Plugin, e: Event) {
    match e
    case Unmirror(id) => UnmirrorCode(s, id) == Done ==> NoRepeats(StoredBy(s, id)) && id !in s.pins.remaining
    case UnpinDone(cid, ok) =>
      !ok && cid in s.pins.unpinning ==> |Waiting(s.pins, OwnerOf(s.pins, cid))| == 1
    case _ => true
  }

  // ----- starting -----

  function CidSet(cids: seq<string>): set<string> {
    set c | c in cids
  }

  lemma {:induction false} StartedUnpins(p: Pins, id: string, cids: seq<string>)
    ensures var r := StartUnpins(p, id, cids);
            && r.remaining == p.remaining && r.pinning == p.pinning
            && (forall c :: c in r.cidToItem <==> c in p.cidToItem || c in cids)
            && (forall c | c in r.cidToItem :: r.cidToItem[c] == if c in cids then id else p.cidToItem[c])
            && (forall c :: r.unpinning[c] == p.unpinning[c] + multiset(cids)[c])
  {
    if cids != [] {
      StartedUnpins(p, id, cids[..|cids| - 1]);
      assert cids == cids[..|cids| - 1] + [cids[|cids| - 1]];
    }
  }

  lemma {:induction false} DistinctCount(cids: seq<string>)
    ensures NoRepeats(cids) <==> forall c :: multiset(cids)[c] <= 1
    ensures NoRepeats(cids) ==> |CidSet(cids)| == |cids|
  {
    if cids != [] {
      var before, last := cids[..|cids| - 1], cids[|cids| - 1];
      DistinctCount(before);
      assert cids == before + [last];
      assert NoRepeats(cids) ==> NoRepeats(before) && last !in before by {
        if NoRepeats(cids) {
          DistinctFront(cids);
        }
      }
      if NoRepeats(before) && last !in before {
        assert CidSet(cids) == CidSet(before) + {last};
        assert forall c :: multiset(cids)[c] <= 1;
        FrontDistinct(before, last);
      } else if !NoRepeats(before) {
        var c :| multiset(before)[c] > 1;
        assert multiset(cids)[c] > 1;
      } else {
        assert multiset(cids)[last] > 1;
      }
    }
  }

  lemma DistinctFront(cids: seq<string>)
    requires cids != [] && NoRepeats(cids)
    ensures NoRepeats(cids[..|cids| - 1]) && cids[|cids| - 1] !in cids[..|cids| - 1]
  {
    var before := cids[..|cids| - 1];
    forall i, j | 0 <= i < j < |before| ensures before[i] != before[j] {
      assert cids[i] != cids[j];
    }
  }

  lemma FrontDistinct(before: seq<string>, last: string)
    requires NoRepeats(before) && last !in before
    ensures NoRepeats(before + [last])
  {
    var cids := before + [last];
    forall i, j | 0 <= i < j < |cids| ensures cids[i] != cids[j] {
      assert cids[i] == before[i];
      assert j < |before| ==> cids[j] == before[j];
    }
  }

  // Before an item's unpins start, the new CIDs wait for it alone and nobody else waits for more or fewer.
  lemma WaitingAfterStart(p: Pins, id: string, cids: seq<string>, x: string)
    requires forall c | c in cids :: c !in p.cidToItem
    ensures var r := StartUnpins(p, id, cids);
            Waiting(r, x) == if x == id then Waiting(p, x) + CidSet(cids) else Waiting(p, x)
  {
    hide StartUnpins;
    StartedUnpins(p, id, cids);
    var r := StartUnpins(p, id, cids);
    forall c ensures c in r.unpinning <==> c in p.unpinning || c in cids {
    }
  }

  predicate StartsClean(p: Pins, id: string, cids: seq<string>) {
    cids != [] && id != "" && (forall c | c in cids :: c !in p.cidToItem)
  }

  lemma CleanStartCounts(p: Pins, id: string, cids: seq<string>)
    requires UnpinLaw(p) && StartsClean(p, id, cids) && NoRepeats(cids) && id !in p.remaining
    ensures Counted(StartUnpins(p.(remaining := p.remaining[id := |cids|]), id, cids))
  {
    hide StartUnpins, NoRepeats;
    var p1 := p.(remaining := p.remaining[id := |cids|]);
    var r := StartUnpins(p1, id, cids);
    StartedUnpins(p1, id, cids);
    DistinctCount(cids);
    NobodyWaits(p, id);
    hide Waiting, Mapped;
    forall x | x in r.remaining ensures r.remaining[x] == |Waiting(r, x)| > 0 {
      WaitingAfterStart(p1, id, cids, x);
      SameWaiting(p, p1, x);
    }
  }

  lemma SameWaiting(p: Pins, p': Pins, x: string)
    requires p' == p.(remaining := p'.remaining)
    ensures Waiting(p', x) == Waiting(p, x)
  {
  }

  lemma CleanStartMaps(p: Pins, id: string, cids: seq<string>)
    requires Mapped(p) && StartsClean(p, id, cids) && NoRepeats(cids)
    ensures Mapped(StartUnpins(p.(remaining := p.remaining[id := |cids|]), id, cids))
  {
    hide StartUnpins, NoRepeats;
    var p1 := p.(remaining := p.remaining[id := |cids|]);
    var r := StartUnpins(p1, id, cids);
    StartedUnpins(p1, id, cids);
    DistinctCount(cids);
    forall c | c in r.unpinning ensures r.unpinning[c] == 1 && c in r.cidToItem && r.cidToItem[c] in r.remaining {
      assert c in cids ==> c !in p.unpinning;
    }
  }

  lemma CleanStartKeeps(p: Pins, id: string, cids: seq<string>)
    requires UnpinLaw(p) && StartsClean(p, id, cids) && NoRepeats(cids) && id !in p.remaining
    ensures UnpinLaw(StartUnpins(p.(remaining := p.remaining[id := |cids|]), id, cids))
  {
    hide StartUnpins, NoRepeats, Mapped, Counted, StartsClean;
    CleanStartCounts(p, id, cids);
    CleanStartMaps(p, id, cids);
  }

  lemma NobodyWaits(p: Pins, id: string)
    requires Mapped(p) && id !in p.remaining
    ensures Waiting(p, id) == {}
  {
  }

  lemma UncleanStartBreaks(p: Pins, id: string, cids: seq<string>)
    requires UnpinLaw(p) && StartsClean(p, id, cids) && (!NoRepeats(cids) || id in p.remaining)
    ensures !UnpinLaw(StartUnpins(p.(remaining := p.remaining[id := |cids|]), id, cids))
  {
    hide StartUnpins, NoRepeats;
    var p1 := p.(remaining := p.remaining[id := |cids|]);
    var r := StartUnpins(p1, id, cids);
    StartedUnpins(p1, id, cids);
    DistinctCount(cids);
    if !NoRepeats(cids) {
      var c :| multiset(cids)[c] > 1;
      assert r.unpinning[c] > 1;
    } else {
      WaitingAfterStart(p1, id, cids, id);
      assert Waiting(p1, id) == Waiting(p, id);
      assert Waiting(p, id) !! CidSet(cids);
      assert |Waiting(p, id) + CidSet(cids)| == |Waiting(p, id)| + |cids|;
      assert r.remaining[id] != |Waiting(r, id)|;
    }
  }

  lemma UnmirrorLaw(s: Plugin, id: string)
    requires UnpinLaw(s.pins) && "" !in s.rows
    ensures UnpinLaw(UnmirrorItem(s, id).pins) <==> Orderly(s, Unmirror(id))
  {
    hide UnpinLaw, StartUnpins, NoRepeats;
    if UnmirrorCode(s, id) == Done {
      var cids := StoredBy(s, id);
      if NoRepeats(cids) && id !in s.pins.remaining {
        CleanStartKeeps(s.pins, id, cids);
      } else {
        UncleanStartBreaks(s.pins, id, cids);
      }
    }
  }

  // ----- answers -----

  lemma WaitingAfterTake(p: Pins, cid: string, x: string)
    requires UnpinLaw(p) && cid in p.unpinning
    ensures Waiting(TakeUnpin(p, cid), x) == Waiting(p, x) - {cid}
  {
    var r := TakeUnpin(p, cid);
    forall c ensures c in r.unpinning <==> c in p.unpinning && c != cid {
      assert r.unpinning[c] == if c == cid then 0 else p.unpinning[c];
    }
  }

  // Taking one answered unpin away: its item counts one less, the others as before.
  lemma TakenLaw(p: Pins, cid: string, remaining: map<string, int>)
    requires UnpinLaw(p) && cid in p.unpinning && "" !in remaining
    requires var id := p.cidToItem[cid];
             && remaining.Keys == (if |Waiting(p, id)| == 1 then p.remaining.Keys - {id} else p.remaining.Keys)
             && forall x | x in remaining :: remaining[x] == if x == id then p.remaining[x] - 1 else p.remaining[x]
    ensures UnpinLaw(TakeUnpin(p, cid).(remaining := remaining))
  {
    hide TakeUnpin;
    var id := p.cidToItem[cid];
    var t := TakeUnpin(p, cid);
    var r := t.(remaining := remaining);
    TakenBooks(p, cid);
    assert cid in Waiting(p, id);
    forall x | x in r.remaining ensures r.remaining[x] == |Waiting(r, x)| > 0 {
      WaitingAfterTake(p, cid, x);
      assert Waiting(r, x) == Waiting(t, x);
    }
    forall c | c in r.unpinning ensures r.unpinning[c] == 1 && c in r.cidToItem && r.cidToItem[c] in r.remaining {
      if p.cidToItem[c] == id && |Waiting(p, id)| == 1 {
        OnlyOne(Waiting(p, id), c, cid);
      }
    }
  }

  lemma TakenBooks(p: Pins, cid: string)
    requires UnpinLaw(p) && cid in p.unpinning
    ensures var r := TakeUnpin(p, cid);
            && (forall c :: r.unpinning[c] == if c == cid then 0 else p.unpinning[c])
            && r.cidToItem == p.cidToItem - {cid} && r.pinning == p.pinning
  {
  }

  lemma OnlyOne(s: set<string>, a: string, b: string)
    requires |s| == 1 && a in s && b in s
    ensures a == b
  {
    assert a != b ==> |s - {a}| > 0 by {
      assert a != b ==> b in s - {a};
    }
  }

  // A failure that leaves others of the item outstanding breaks the count.
  lemma FailedEarlyBreaks(p: Pins, cid: string)
    requires UnpinLaw(p) && cid in p.unpinning && |Waiting(p, p.cidToItem[cid])| != 1
    ensures !UnpinLaw(TakeUnpin(p, cid).(remaining := p.remaining - {p.cidToItem[cid]}))
  {
    hide TakeUnpin;
    var id := p.cidToItem[cid];
    assert cid in Waiting(p, id);
    var c := Another(Waiting(p, id), cid);
    TakenBooks(p, cid);
    var r := TakeUnpin(p, cid).(remaining := p.remaining - {id});
    assert c in r.unpinning && r.cidToItem[c] == id;
  }

  lemma Another(s: set<string>, a: string) returns (b: string)
    requires a in s && |s| != 1
    ensures b in s && b != a
  {
    if s == {a} {
      assert false;
    }
    b :| b in s && b != a;
  }

  lemma UnpinDoneLaw(s: Plugin, cid: string, ok: bool)
    requires UnpinLaw(s.pins)
    ensures UnpinLaw(UnpinFinished(s, cid, ok).pins) <==> Orderly(s, UnpinDone(cid, ok))
  {
    hide TakeUnpin, UnpinLaw;
    if cid in s.pins.unpinning {
      AnswerFacts(s.pins, cid);
      var p, id := s.pins, s.pins.cidToItem[cid];
      if |Waiting(p, id)| == 1 {
        TakenLaw(p, cid, p.remaining - {id});
      } else if ok {
        TakenLaw(p, cid, p.remaining[id := p.remaining[id] - 1]);
      } else {
        FailedEarlyBreaks(p, cid);
      }
    }
  }

  lemma AnswerFacts(p: Pins, cid: string)
    requires UnpinLaw(p) && cid in p.unpinning
    ensures cid in p.cidToItem && OwnerOf(p, cid) == p.cidToItem[cid] != "" && p.cidToItem[cid] in p.remaining
    ensures p.remaining[p.cidToItem[cid]] == |Waiting(p, p.cidToItem[cid])| > 0 && "" !in p.remaining
    ensures TakeUnpin(p, cid).remaining == p.remaining
  {
  }

  // The item is freed at its last answer and at no earlier one.
  lemma FreedAtTheLast(s: Plugin, cid: string)
    requires UnpinLaw(s.pins) && cid in s.pins.unpinning
    ensures var id, r := OwnerOf(s.pins, cid), UnpinFinished(s, cid, true);
            && Waiting(r.pins, id) == Waiting(s.pins, id) - {cid}
            && (if Waiting(r.pins, id) == {}
                then (id in s.rows ==> r.rows == s.rows[id := Row(Available, 0, [])]) && id !in r.pins.remaining
                else r.rows == s.rows && id in r.pins.remaining && r.pins.remaining[id] == |Waiting(r.pins, id)|)
  {
    hide UnpinLaw;
    var id, r := OwnerOf(s.pins, cid), UnpinFinished(s, cid, true);
    AnswerFacts(s.pins, cid);
    WaitingAfterTake(s.pins, cid, id);
    assert Waiting(r.pins, id) == Waiting(TakeUnpin(s.pins, cid), id);
    assert cid in Waiting(s.pins, id);
    assert |Waiting(r.pins, id)| == |Waiting(s.pins, id)| - 1;
  }

  // After one failed unpin a later success of the same item still makes it available, with the failed CID
  // forgotten.
  lemma FailureForgotten(s: Plugin, failed: string, last: string)
    requires UnpinLaw(s.pins) && failed != last && failed in s.pins.unpinning && last in s.pins.unpinning
    requires OwnerOf(s.pins, failed) == OwnerOf(s.pins, last) && OwnerOf(s.pins, last) in s.rows
    ensures var id := OwnerOf(s.pins, last);
            && Step(s, UnpinDone(failed, false)).rows[id].state == Failed
            && Step(Step(s, UnpinDone(failed, false)), UnpinDone(last, true)).rows[id] == Row(Available, 0, [])
  {
    hide UnpinLaw, UnpinFinished;
    FailedAnswer(s, failed);
    var s1 := UnpinFinished(s, failed, false);
    AnswerFacts(s.pins, last);
    LateSuccess(s1, last, OwnerOf(s.pins, last));
  }

  lemma FailedAnswer(s: Plugin, cid: string)
    requires UnpinLaw(s.pins) && cid in s.pins.unpinning && OwnerOf(s.pins, cid) in s.rows
    ensures var id, r := OwnerOf(s.pins, cid), UnpinFinished(s, cid, false);
            && id in r.rows && r.rows[id].state == Failed && id !in r.pins.remaining
            && (forall c | c in s.pins.unpinning && c != cid ::
                  c in r.pins.unpinning && OwnerOf(r.pins, c) == OwnerOf(s.pins, c))
  {
    hide UnpinLaw, TakeUnpin;
    AnswerFacts(s.pins, cid);
    TakenBooks(s.pins, cid);
  }

  lemma LateSuccess(s: Plugin, cid: string, id: string)
    requires cid in s.pins.unpinning && OwnerOf(s.pins, cid) == id && id != ""
    requires id in s.rows && id !in s.pins.remaining
    ensures UnpinFinished(s, cid, true).rows[id] == Row(Available, 0, [])
  {
  }

  // ----- every step -----

  lemma PinBooks(p: Pins, r: Pins)
    requires UnpinLaw(p) && r.remaining == p.remaining && r.unpinning == p.unpinning
    requires forall c | c in p.unpinning :: c in r.cidToItem && r.cidToItem[c] == p.cidToItem[c]
    ensures UnpinLaw(r)
  {
    forall id | id in r.remaining ensures Waiting(r, id) == Waiting(p, id) {
    }
  }

  lemma MirrorPins(s: Plugin, id: string)
    requires UnpinLaw(s.pins)
    ensures UnpinLaw(MirrorItem(s, id).pins)
  {
    hide UnpinLaw, FromArchive, ArchiveId, StartIa;
    if MirrorCode(s, id) == Done && !FromArchive(SourceOf(s, id).cid) {
      Unpinned(s.pins);
      PinBooks(s.pins, StartPin(s, id, SourceOf(s, id).cid).pins);
    } else if MirrorCode(s, id) == Done {
      IaKeepsPins(s, id);
    }
  }

  lemma IaKeepsPins(s: Plugin, id: string)
    ensures StartIa(s, id, ArchiveId(SourceOf(s, id))).pins == s.pins
  {
  }

  lemma Unpinned(p: Pins)
    requires UnpinLaw(p)
    ensures forall c | c in p.unpinning :: c in p.cidToItem
  {
  }

  // An answered fetch takes a mapping out; it is no unpin's, because a CID is pinned or unpinned, not both.
  predicate PinsApart(p: Pins) {
    forall c | c in p.pinning :: c !in p.unpinning && c in p.cidToItem
  }

  lemma DrainPins(s: Plugin)
    requires UnpinLaw(s.pins)
    ensures UnpinLaw(DrainAutoQueue(s).pins)
  {
    hide UnpinLaw, MirrorItem;
    if Idle(s) {
      var n := Skipped(s.rows, s.queue);
      if n < |s.queue| {
        MirrorPins(s.(queue := s.queue[n + 1..]), s.queue[n]);
      }
    }
  }

  lemma PinDoneLaw(s: Plugin, cid: string, ok: bool)
    requires UnpinLaw(s.pins) && PinsApart(s.pins)
    ensures UnpinLaw(PinFinished(s, cid, ok).pins)
  {
    hide UnpinLaw, ReseedRefused, CandidatesFor;
    if cid in s.pins.pinning {
      Unpinned(s.pins);
      PinBooks(s.pins, PinFinished(s, cid, ok).pins);
    }
  }

  lemma UploadKeepsPins(s: Plugin, ok: bool, cid: string)
    ensures UploadFinished(s, ok, cid).pins == s.pins
  {
  }

  lemma ReplyKeepsPins(s: Plugin, token: nat, ok: bool, body: seq<Token>, content: Option<Digests>, accepted: bool)
    ensures DownloadReply(s, token, ok, body, content, accepted).pins == s.pins
  {
    hide UploadFinished, SetState, SetStored, Parsed, VerifyIaFile, SumSizes;
    if token in s.downloads {
      var s1 := s.(downloads := s.downloads - {token});
      match s.downloads[token]
      case ManifestTask(_) =>
      case FileTask(_, entry, _) =>
        UploadKeepsPins(
          s1.(ia := s1.ia.(unverified := s1.ia.unverified + (if VerifyIaFile(content, entry) == Unverified then 1 else 0),
                           acts := s1.ia.acts + [Fetched(entry, content), Sent(entry)])),
          false, "");
      case CandidateTask(item, _) => UploadKeepsPins(s1, false, "");
    }
  }

  lemma OtherKeepsPins(s: Plugin, e: Event)
    requires e.Abort? || e.RemoveRow? || e.RemoveAll? || e.Unfollow? || e.StorageState? || e.Progress?
    ensures Step(s, e).pins == s.pins
  {
    hide WithoutId, Percent, FilePercent;
  }

  predicate Lawful(s: Plugin) {
    "" !in s.rows && UnpinLaw(s.pins) && PinsApart(s.pins)
  }

  lemma DrainStepPins(s: Plugin, e: Event)
    requires UnpinLaw(s.pins) && (e.AutoOn? || e.Discover? || e.HealthTick?)
    ensures UnpinLaw(Step(s, e).pins)
  {
    hide UnpinLaw, DrainAutoQueue, WithinCap, Wanted, EnqueueAll, Choose;
    match e
    case HealthTick => DrainPins(s);
    case AutoOn(listing) => DrainPins(s.(queue := EnqueueAll(s.queue, Choose(listing, x => Wanted(s, x)))));
    case Discover(autoOn, ids) =>
      var s1 := WithRows(s, ids);
      DrainPins(s1.(queue := if autoOn then EnqueueAll(s1.queue, Choose(ids, x => x in s1.rows && WithinCap(s1, x)))
                             else s1.queue));
  }

  // A step keeps the counters true if and only if it is orderly.
  lemma StepUnpins(s: Plugin, e: Event)
    requires Lawful(s)
    ensures UnpinLaw(Step(s, e).pins) <==> Orderly(s, e)
  {
    hide UnpinLaw, PinsApart, DownloadReply, UploadFinished, UnmirrorItem, UnpinFinished, PinFinished, MirrorItem,
      AutoPreserveOn, Discovered, DrainAutoQueue;
    if e.Mirror? {
      MirrorPins(s, e.id);
    } else if e.Unmirror? {
      UnmirrorLaw(s, e.id);
    } else if e.UnpinDone? {
      UnpinDoneLaw(s, e.cid, e.ok);
    } else if e.PinDone? {
      PinDoneLaw(s, e.cid, e.ok);
    } else if e.Reply? {
      ReplyKeepsPins(s, e.token, e.ok, e.body, e.content, e.accepted);
    } else if e.UploadDone? {
      UploadKeepsPins(s.(uploading := false), e.ok, e.cid);
    } else if e.AutoOn? || e.Discover? || e.HealthTick? {
      DrainStepPins(s, e);
    } else if e.Restart? {
      EmptyLaw();
    } else {
      hide Step;
      OtherKeepsPins(s, e);
    }
  }

  lemma EmptyLaw()
    ensures UnpinLaw(NO_PINS)
  {
  }

  // ----- whole runs -----

  // A step adds no row but those it discovers or loads, and none with an empty id.
  lemma NoEmptyRow(s: Plugin, e: Event)
    requires "" !in s.rows
    ensures "" !in Step(s, e).rows
  {
    hide UnmirrorItem, WithoutId, EnqueueAll, Choose, WithinCap, Wanted, Percent, FilePercent, DownloadReply, UploadFinished,
      DrainAutoQueue, MirrorItem, PinFinished, UnpinFinished;
    match e
    case Mirror(id) => MirrorRows(s, id);
    case Unmirror(id) => UnmirrorRows(s, id);
    case AutoOn(listing) =>
      DrainRows(s.(queue := EnqueueAll(s.queue, Choose(listing, x => Wanted(s, x)))));
    case Discover(autoOn, ids) =>
      var s1 := WithRows(s, ids);
      DrainRows(s1.(queue := if autoOn then EnqueueAll(s1.queue, Choose(ids, x => x in s1.rows && WithinCap(s1, x)))
                             else s1.queue));
    case HealthTick => DrainRows(s);
    case Reply(token, ok, body, content, accepted) => ReplyRows(s, token, ok, body, content, accepted);
    case UploadDone(ok, cid) => UploadRows(s.(uploading := false), ok, cid);
    case PinDone(cid, ok) => PinRows(s, cid, ok);
    case UnpinDone(cid, ok) => UnpinRows(s, cid, ok);
    case _ =>
  }

  lemma MirrorRows(s: Plugin, id: string)
    ensures MirrorItem(s, id).rows.Keys == s.rows.Keys
  {
  }

  lemma UnmirrorRows(s: Plugin, id: string)
    ensures UnmirrorItem(s, id).rows == s.rows
  {
  }

  lemma DrainRows(s: Plugin)
    ensures DrainAutoQueue(s).rows.Keys == s.rows.Keys
  {
    hide MirrorItem;
    if Idle(s) && Skipped(s.rows, s.queue) < |s.queue| {
      var n := Skipped(s.rows, s.queue);
      MirrorRows(s.(queue := s.queue[n + 1..]), s.queue[n]);
    }
  }

  lemma UploadRows(s: Plugin, ok: bool, cid: string)
    ensures UploadFinished(s, ok, cid).rows.Keys == s.rows.Keys
  {
    hide Enqueue;
  }

  lemma FileRows(s: Plugin, entry: IaFileEntry, ok: bool, content: Option<Digests>, accepted: bool)
    ensures FileReply(s, entry, ok, content, accepted).rows.Keys == s.rows.Keys
  {
    hide UploadFinished, VerifyIaFile;
    UploadRows(
      s.(ia := s.ia.(unverified := s.ia.unverified + (if VerifyIaFile(content, entry) == Unverified then 1 else 0),
                     acts := s.ia.acts + [Fetched(entry, content), Sent(entry)])),
      false, "");
  }

  lemma ReplyRows(s: Plugin, token: nat, ok: bool, body: seq<Token>, content: Option<Digests>, accepted: bool)
    ensures DownloadReply(s, token, ok, body, content, accepted).rows.Keys == s.rows.Keys
  {
    hide UploadFinished, FileReply, Parsed, SumSizes;
    if token in s.downloads {
      var s1 := s.(downloads := s.downloads - {token});
      match s.downloads[token]
      case ManifestTask(_) =>
      case FileTask(_, entry, _) => FileRows(s1, entry, ok, content, accepted);
      case CandidateTask(item, _) => UploadRows(s1, false, "");
    }
  }

  lemma PinRows(s: Plugin, cid: string, ok: bool)
    ensures PinFinished(s, cid, ok).rows.Keys == s.rows.Keys
  {
    hide ReseedRefused, CandidatesFor;
  }

  lemma UnpinRows(s: Plugin, cid: string, ok: bool)
    ensures UnpinFinished(s, cid, ok).rows.Keys == s.rows.Keys
  {
    hide FilesLeft, TakeUnpin;
  }

  lemma UnmirrorApart(s: Plugin, id: string)
    requires UnpinLaw(s.pins) && PinsApart(s.pins)
    ensures PinsApart(UnmirrorItem(s, id).pins)
  {
    hide UnpinLaw, StartUnpins;
    if UnmirrorCode(s, id) == Done {
      var cids := StoredBy(s, id);
      StartedUnpins(s.pins.(remaining := s.pins.remaining[id := |cids|]), id, cids);
    }
  }

  lemma UnpinApart(s: Plugin, cid: string, ok: bool)
    requires UnpinLaw(s.pins) && PinsApart(s.pins)
    ensures PinsApart(UnpinFinished(s, cid, ok).pins)
  {
    hide UnpinLaw, UnpinFinished, TakeUnpin;
    UnpinBooks(s, cid, ok);
    if cid in s.pins.unpinning {
      TakenBooks(s.pins, cid);
    }
  }

  lemma UnpinBooks(s: Plugin, cid: string, ok: bool)
    ensures var p := if cid in s.pins.unpinning then TakeUnpin(s.pins, cid) else s.pins;
            UnpinFinished(s, cid, ok).pins == p.(remaining := UnpinFinished(s, cid, ok).pins.remaining)
  {
    hide SetState, SetStored;
  }

  lemma PinApart(s: Plugin, cid: string, ok: bool)
    requires PinsApart(s.pins)
    ensures PinsApart(PinFinished(s, cid, ok).pins)
  {
    hide ReseedRefused, CandidatesFor;
  }

  lemma MirrorApart(s: Plugin, id: string)
    requires UnpinLaw(s.pins) && PinsApart(s.pins)
    ensures PinsApart(MirrorItem(s, id).pins)
  {
    hide UnpinLaw, FromArchive, ArchiveId;
    Unpinned(s.pins);
  }

  lemma DrainApart(s: Plugin)
    requires UnpinLaw(s.pins) && PinsApart(s.pins)
    ensures PinsApart(DrainAutoQueue(s).pins)
  {
    hide UnpinLaw, PinsApart, MirrorItem;
    if Idle(s) && Skipped(s.rows, s.queue) < |s.queue| {
      var n := Skipped(s.rows, s.queue);
      MirrorApart(s.(queue := s.queue[n + 1..]), s.queue[n]);
    }
  }

  lemma StepApart(s: Plugin, e: Event)
    requires UnpinLaw(s.pins) && PinsApart(s.pins)
    ensures PinsApart(Step(s, e).pins)
  {
    hide UnpinLaw, PinsApart, DownloadReply, UploadFinished, UnmirrorItem, UnpinFinished, PinFinished, MirrorItem,
      DrainAutoQueue, EnqueueAll, Choose, WithinCap, Wanted, WithoutId, Percent, FilePercent;
    match e
    case Mirror(id) => MirrorApart(s, id);
    case Unmirror(id) => UnmirrorApart(s, id);
    case AutoOn(listing) => DrainApart(s.(queue := EnqueueAll(s.queue, Choose(listing, x => Wanted(s, x)))));
    case Discover(autoOn, ids) =>
      var s1 := WithRows(s, ids);
      DrainApart(s1.(queue := if autoOn then EnqueueAll(s1.queue, Choose(ids, x => x in s1.rows && WithinCap(s1, x)))
                              else s1.queue));
    case HealthTick => DrainApart(s);
    case Reply(token, ok, body, content, accepted) => ReplyKeepsPins(s, token, ok, body, content, accepted);
    case UploadDone(ok, cid) => UploadKeepsPins(s.(uploading := false), ok, cid);
    case PinDone(cid, ok) => PinApart(s, cid, ok);
    case UnpinDone(cid, ok) => UnpinApart(s, cid, ok);
    case Restart(loaded) => NothingPinned();
    case _ =>
  }

  lemma NothingPinned()
    ensures PinsApart(NO_PINS)
  {
  }

  lemma StepLawful(s: Plugin, e: Event)
    requires Lawful(s)
    ensures Lawful(Step(s, e)) <==> Orderly(s, e)
  {
    hide UnpinLaw, PinsApart, Step;
    StepUnpins(s, e);
    StepApart(s, e);
    NoEmptyRow(s, e);
  }

  lemma BootLawful(catalog: Catalog, saved: Rows)
    ensures Lawful(Boot(catalog, saved))
  {
    EmptyLaw();
  }

  // For any number of unmirrors at once and any order of answers, the counter of every item is the number of
  // its outstanding unpins at every point of a run if and only if each step was orderly when it came.
  lemma CountersAreOutstanding(s: Plugin, events: seq<Event>)
    requires Lawful(s)
    ensures Throughout(s, events, Lawful) <==> EachStep(s, events, Orderly)
  {
    hide Orderly, Step, Lawful, Throughout, EachStep, RunFrom;
    forall p, e | Lawful(p) ensures Lawful(Step(p, e)) <==> Orderly(p, e) {
      StepLawful(p, e);
    }
    KeptIffAllowed(s, events, Lawful, Orderly);
  }

  // What the law says of every item: its counter, or the lack of one, is the number of its outstanding unpins.
  lemma CountsOf(s: Plugin)
    requires Lawful(s)
    ensures forall id | id in s.pins.remaining :: s.pins.remaining[id] == |Waiting(s.pins, id)| > 0
    ensures forall id | id !in s.pins.remaining :: Waiting(s.pins, id) == {}
  {
    forall id | id !in s.pins.remaining ensures Waiting(s.pins, id) == {} {
      NobodyWaits(s.pins, id);
    }
  }

  // A CID in flight is in the books, so the storage client never answers a pin with "in progress".
  lemma PinNeverInProgress(s: Plugin, id: string)
    requires Lawful(s) && MirrorCode(s, id) == Done && !FromArchive(SourceOf(s, id).cid)
    ensures SourceOf(s, id).cid !in s.pins.pinning
  {
    hide UnpinLaw;
  }

  // ----- what an unmirror asks storage to remove -----

  // Stored CIDs are storage's own, and only items preserved from the archive have any.
  predicate StoredByPreserve(s: Plugin) {
    && (forall c | c in s.ia.stored :: !FromArchive(c))
    && (s.ia.item != "" ==> Retryable(s.catalog, s.ia.item))
    && (forall id | id in s.rows && s.rows[id].storedCids != [] :: HoldsFiles(s.catalog, s.rows, id))
  }

  predicate HoldsFiles(catalog: Catalog, rows: Rows, id: string)
    requires id in rows
  {
    && id in catalog && FromArchive(catalog[id].cid)
    && forall c | c in rows[id].storedCids :: !FromArchive(c)
  }

  // An item whose inscription names a CID is unpinned under that CID alone. Stored files are all asked for if
  // and only if the item is not a collection entry "ia:…" that holds some: of those, none is.
  lemma StoredFilesLeftBehind(s: Plugin, id: string)
    requires StoredByPreserve(s) && id in s.rows && id in s.catalog && UnmirrorCode(s, id) == Done
    ensures UnmirrorItem(s, id).pins.unpinning == s.pins.unpinning + multiset(StoredBy(s, id))
    ensures (forall c | c in s.rows[id].storedCids :: c in StoredBy(s, id)) <==>
            !(StartsWith(s.catalog[id].cid, "ia:") && s.rows[id].storedCids != [])
    ensures StartsWith(s.catalog[id].cid, "ia:") ==> forall c | c in s.rows[id].storedCids :: c !in StoredBy(s, id)
  {
    StartedUnpins(s.pins.(remaining := s.pins.remaining[id := |StoredBy(s, id)|]), id, StoredBy(s, id));
    if s.rows[id].storedCids != [] {
      assert HoldsFiles(s.catalog, s.rows, id);
      assert s.rows[id].storedCids[0] in s.rows[id].storedCids;
    }
  }

  // The answer to that one unpin clears the stored CIDs, so they are never asked for later either.
  lemma StoredFilesForgotten(s: Plugin, id: string)
    requires "" !in s.rows && id in s.rows && id in s.catalog && StartsWith(s.catalog[id].cid, "ia:")
    requires UnmirrorCode(s, id) == Done
    ensures var cid := s.catalog[id].cid;
            var r := Step(Step(s, Unmirror(id)), UnpinDone(cid, true));
            r.rows == s.rows[id := Row(Available, 0, [])] && r.pins.unpinning == s.pins.unpinning
  {
    var cid := s.catalog[id].cid;
    var p := s.pins.(remaining := s.pins.remaining[id := 1]);
    OneUnpin(p, id, cid);
    assert s.pins.unpinning + multiset{cid} - multiset{cid} == s.pins.unpinning;
  }

  lemma OneUnpin(p: Pins, id: string, cid: string)
    ensures StartUnpins(p, id, [cid]) ==
            p.(cidToItem := p.cidToItem[cid := id], unpinning := p.unpinning + multiset{cid})
  {
    assert [cid][..0] == [];
  }

  // ----- stored CIDs over whole runs -----

  // Storage names its files by CIDs of its own, and so does the state file.
  predicate NamesOwnCids(s: Plugin, e: Event) {
    match e
    case UploadDone(_, cid) => cid == "" || !FromArchive(cid)
    case Restart(loaded) =>
      forall id | id in loaded && id in s.catalog && loaded[id].storedCids != [] :: HoldsFiles(s.catalog, loaded, id)
    case _ => true
  }

  // Each row holds the CIDs it held, or none, or is new and holds none.
  predicate NoMoreStored(s: Plugin, r: Plugin) {
    && r.catalog == s.catalog
    && forall id | id in r.rows && r.rows[id].storedCids != [] ::
         id in s.rows && r.rows[id].storedCids == s.rows[id].storedCids
  }

  lemma StoredKept(s: Plugin, r: Plugin)
    requires StoredByPreserve(s) && NoMoreStored(s, r)
    requires r.ia.item == "" || r.ia.item == s.ia.item || Retryable(s.catalog, r.ia.item)
    requires r.ia.stored == [] || r.ia.stored == s.ia.stored
    ensures StoredByPreserve(r)
  {
    hide Retryable, FromArchive;
    forall id | id in r.rows && r.rows[id].storedCids != [] ensures HoldsFiles(r.catalog, r.rows, id) {
      assert HoldsFiles(s.catalog, s.rows, id);
    }
  }

  lemma RunTakesStored(s: Plugin, cid: string)
    requires StoredByPreserve(s) && (cid == "" || !FromArchive(cid))
    ensures StoredByPreserve(s.(uploading := false, ia := FileStored(s.ia, cid)))
  {
    hide Retryable, FromArchive;
  }

  lemma NextFileStored(s: Plugin)
    requires StoredByPreserve(s) && s.ia.item != ""
    ensures StoredByPreserve(IaNextFile(s))
  {
    hide FromArchive, ArchiveId;
    var r := IaNextFile(s);
    forall id | id in r.rows && r.rows[id].storedCids != [] ensures HoldsFiles(r.catalog, r.rows, id) {
      if id != s.ia.item || s.ia.idx < |s.ia.files| {
        assert HoldsFiles(s.catalog, s.rows, id);
      }
    }
  }

  lemma UploadStored(s: Plugin, ok: bool, cid: string)
    requires StoredByPreserve(s) && (ok ==> cid == "" || !FromArchive(cid))
    ensures StoredByPreserve(UploadFinished(s.(uploading := false), ok, cid))
  {
    hide StoredByPreserve, IaNextFile, FromArchive;
    var r := UploadFinished(s.(uploading := false), ok, cid);
    if s.ia.item != "" && ok {
      RunTakesStored(s, cid);
      NextFileStored(s.(uploading := false, ia := FileStored(s.ia, cid)));
    } else {
      StoredKept(s, r);
    }
  }

  lemma RefusedStored(s: Plugin)
    ensures var r := UploadFinished(s, false, "");
            && NoMoreStored(s, r) && (r.ia.item == "" || r.ia == s.ia)
            && (r.ia.stored == [] || r.ia.stored == s.ia.stored)
  {
    hide Enqueue;
  }

  lemma FileStoredReply(s: Plugin, entry: IaFileEntry, ok: bool, content: Option<Digests>, accepted: bool)
    requires StoredByPreserve(s)
    ensures StoredByPreserve(FileReply(s, entry, ok, content, accepted))
  {
    hide StoredByPreserve, UploadFinished, VerifyIaFile;
    var s1 := s.(ia := s.ia.(unverified := s.ia.unverified + (if VerifyIaFile(content, entry) == Unverified then 1 else 0),
                             acts := s.ia.acts + [Fetched(entry, content), Sent(entry)]));
    RefusedStored(s1);
    StoredKept(s, FileReply(s, entry, ok, content, accepted));
  }

  lemma CandidateStoredReply(s: Plugin, item: string, ok: bool, accepted: bool)
    requires StoredByPreserve(s)
    ensures StoredByPreserve(CandidateReply(s, item, ok, accepted))
  {
    hide StoredByPreserve, UploadFinished;
    RefusedStored(s);
    StoredKept(s, CandidateReply(s, item, ok, accepted));
  }

  lemma ManifestStored(s: Plugin, ok: bool, body: seq<Token>)
    requires StoredByPreserve(s)
    ensures StoredByPreserve(ManifestReply(s, ok, body))
  {
    hide StoredByPreserve, IaNextFile, Parsed, SumSizes;
    var s1 := s.(ia := s.ia.(files := Parsed(body), done := 0, total := SumSizes(Parsed(body))));
    if s.ia.item != "" && ok && Parsed(body) != [] {
      StoredKept(s, s1);
      NextFileStored(s1);
    } else {
      StoredKept(s, ManifestReply(s, ok, body));
    }
  }

  lemma ReplyStored(s: Plugin, token: nat, ok: bool, body: seq<Token>, content: Option<Digests>, accepted: bool)
    requires StoredByPreserve(s)
    ensures StoredByPreserve(DownloadReply(s, token, ok, body, content, accepted))
  {
    hide StoredByPreserve, ManifestReply, FileReply, CandidateReply;
    if token in s.downloads {
      var s1 := s.(downloads := s.downloads - {token});
      StoredKept(s, s1);
      match s.downloads[token]
      case ManifestTask(_) => ManifestStored(s1, ok, body);
      case FileTask(_, entry, _) => FileStoredReply(s1, entry, ok, content, accepted);
      case CandidateTask(item, _) => CandidateStoredReply(s1, item, ok, accepted);
    }
  }

  lemma MirrorStored(s: Plugin, id: string)
    requires StoredByPreserve(s)
    ensures StoredByPreserve(MirrorItem(s, id))
  {
    hide StoredByPreserve;
    StoredKept(s, MirrorItem(s, id));
  }

  lemma DrainStored(s: Plugin)
    requires StoredByPreserve(s)
    ensures StoredByPreserve(DrainAutoQueue(s))
  {
    hide StoredByPreserve, MirrorItem;
    StoredKept(s, s.(queue := []));
    if Idle(s) && Skipped(s.rows, s.queue) < |s.queue| {
      var n := Skipped(s.rows, s.queue);
      StoredKept(s, s.(queue := s.queue[n + 1..]));
      MirrorStored(s.(queue := s.queue[n + 1..]), s.queue[n]);
    }
  }

  lemma DrainEventStored(s: Plugin, e: Event)
    requires StoredByPreserve(s) && (e.AutoOn? || e.Discover? || e.HealthTick?)
    ensures StoredByPreserve(Step(s, e))
  {
    hide StoredByPreserve, DrainAutoQueue, EnqueueAll, Choose, WithinCap, Wanted;
    match e
    case HealthTick => DrainStored(s);
    case AutoOn(listing) =>
      var s1 := s.(queue := EnqueueAll(s.queue, Choose(listing, x => Wanted(s, x))));
      StoredKept(s, s1);
      DrainStored(s1);
    case Discover(autoOn, ids) =>
      var s1 := WithRows(s, ids);
      var s2 := s1.(queue := if autoOn then EnqueueAll(s1.queue, Choose(ids, x => x in s1.rows && WithinCap(s1, x)))
                             else s1.queue);
      StoredKept(s, s2);
      DrainStored(s2);
  }

  lemma PinStored(s: Plugin, cid: string, ok: bool)
    requires StoredByPreserve(s)
    ensures StoredByPreserve(PinFinished(s, cid, ok))
  {
    hide StoredByPreserve, ReseedRefused, CandidatesFor, OwnerOf;
    StoredKept(s, PinFinished(s, cid, ok));
  }

  lemma UnpinStored(s: Plugin, cid: string, ok: bool)
    requires StoredByPreserve(s)
    ensures StoredByPreserve(UnpinFinished(s, cid, ok))
  {
    hide StoredByPreserve, FilesLeft, TakeUnpin, OwnerOf;
    StoredKept(s, UnpinFinished(s, cid, ok));
  }

  lemma ProgressStored(s: Plugin, token: nat, recv: int, size: int)
    requires StoredByPreserve(s)
    ensures StoredByPreserve(DownloadProgress(s, token, recv, size))
  {
    hide StoredByPreserve, Percent, FilePercent;
    StoredKept(s, DownloadProgress(s, token, recv, size));
  }

  lemma OtherStored(s: Plugin, e: Event)
    requires StoredByPreserve(s)
    requires e.Unmirror? || e.Abort? || e.RemoveRow? || e.RemoveAll? || e.Unfollow? || e.StorageState?
    ensures StoredByPreserve(Step(s, e))
  {
    hide StoredByPreserve, StartUnpins, WithoutId;
    StoredKept(s, Step(s, e));
  }

  lemma BootStored(catalog: Catalog, saved: Rows)
    requires forall id | id in saved && id in catalog && saved[id].storedCids != [] :: HoldsFiles(catalog, saved, id)
    ensures StoredByPreserve(Boot(catalog, saved))
  {
    hide FromArchive;
    var r := Boot(catalog, saved);
    forall id | id in r.rows && r.rows[id].storedCids != [] ensures HoldsFiles(r.catalog, r.rows, id) {
      assert HoldsFiles(catalog, saved, id);
    }
  }

  // No step gives an item that is not preserved from the archive a stored CID.
  lemma StepStored(s: Plugin, e: Event)
    requires StoredByPreserve(s) && NamesOwnCids(s, e)
    ensures StoredByPreserve(Step(s, e))
  {
    hide StoredByPreserve, FromArchive, HoldsFiles, DownloadReply, UploadFinished, MirrorItem, DrainAutoQueue, Boot,
      DownloadProgress, PinFinished, UnpinFinished;
    match e
    case Mirror(id) => MirrorStored(s, id);
    case Reply(token, ok, body, content, accepted) => ReplyStored(s, token, ok, body, content, accepted);
    case UploadDone(ok, cid) => UploadStored(s, ok, cid);
    case Progress(token, recv, size) => ProgressStored(s, token, recv, size);
    case PinDone(cid, ok) => PinStored(s, cid, ok);
    case UnpinDone(cid, ok) => UnpinStored(s, cid, ok);
    case Restart(loaded) => BootStored(s.catalog, loaded);
    case AutoOn(_) => DrainEventStored(s, e);
    case Discover(_, _) => DrainEventStored(s, e);
    case HealthTick => DrainEventStored(s, e);
    case _ => OtherStored(s, e);
  }
}
