/** The preserve machine from its start: each invariant and its exact condition, for every process over every
    state file, and three runs told from the beginning - one that ends well and two that do not. */
module PreserveResults {
  import opened Basics
  import opened Inscriptions
  import opened IaFiles
  import opened PreserveSteps
  import opened PreserveRuns
  import opened PreserveServed
  import opened PreserveFutures
  import opened PreserveOwnership
  import opened PreserveAccounting
  import PreserveQueue
  import PreserveUnpins
  import PreserveProgress
  import PreserveOutcomes
  import Labels
  import Storage = StorageClients

  // ----- every process -----

  // Every event of a process was allowed when it came if and only if the process was safe at every point, and
  // then each item preserve that ended "mirrored" was stored entire and each reseed that did by its own file.
  lemma EveryProcessStoresWhatItMirrors(catalog: Catalog, saved: Rows, events: seq<Event>)
    ensures var s := Boot(catalog, saved);
            && (EachStep(s, events, Allowed) <==> Throughout(s, events, Safe))
            && (EachStep(s, events, Allowed) ==> Honest(RunFrom(s, events)))
  {
    hide Allowed, Safe, EachStep, Throughout, RunFrom, Sound, Honest, Boot;
    BootSound(catalog, saved);
    MirroredMeansStored(Boot(catalog, saved), events);
    if EachStep(Boot(catalog, saved), events, Allowed) {
      CompletedAreExact(Boot(catalog, saved), events);
    }
  }

  // Every event of a process kept the owners when it came if and only if at no point a row was, or could by such
  // events come to be, mirroring with nobody at work on it.
  lemma EveryProcessOwnsWhatItMirrors(catalog: Catalog, saved: Rows, events: seq<Event>)
    ensures var s := Boot(catalog, saved);
            && (EachStep(s, events, KeepsOwners) <==> Throughout(s, events, SafeOwners))
            && (EachStep(s, events, KeepsOwners) <==> Throughout(s, events, Owned))
            && (EachStep(s, events, KeepsOwners) ==> MirroringAccounted(RunFrom(s, events)))
  {
    hide Owned, KeepsOwners, SafeOwners, MirroringAccounted, EachStep, Throughout, RunFrom, Boot;
    var s := Boot(catalog, saved);
    BootOwned(catalog, saved);
    OwnedThroughout(s, events);
    MirroringIsAccounted(s, events);
    if EachStep(s, events, KeepsOwners) {
      MirroringIsOwned(s, events);
    }
  }

  // Every pending item of a process waits in the queue at every point if and only if neither its state file nor
  // that of a restart held a pending row.
  lemma EveryProcessQueuesWhatIsPending(catalog: Catalog, saved: Rows, events: seq<Event>)
    ensures var s := Boot(catalog, saved);
            Throughout(s, events, PreserveQueue.QueueSound) <==>
            PreserveQueue.NonePending(catalog, saved) && EachStep(s, events, PreserveQueue.LoadsNoPending)
  {
    hide PreserveQueue.QueueSound, PreserveQueue.LoadsNoPending, PreserveQueue.NonePending, EachStep, Boot;
    var s := Boot(catalog, saved);
    PreserveQueue.BootQueue(catalog, saved);
    if PreserveQueue.NonePending(catalog, saved) {
      PreserveQueue.PendingIsQueued(s, events);
    } else {
      assert events[..0] == [];
      assert !PreserveQueue.QueueSound(RunFrom(s, events[..0]));
    }
  }

  lemma EveryProcessCountsItsUnpins(catalog: Catalog, saved: Rows, events: seq<Event>)
    ensures var s := Boot(catalog, saved);
            Throughout(s, events, PreserveUnpins.Lawful) <==> EachStep(s, events, PreserveUnpins.Orderly)
  {
    hide PreserveUnpins.Lawful, PreserveUnpins.Orderly, EachStep, Throughout, Boot;
    PreserveUnpins.BootLawful(catalog, saved);
    PreserveUnpins.CountersAreOutstanding(Boot(catalog, saved), events);
  }

  lemma EveryProcessShowsRisingProgress(catalog: Catalog, saved: Rows, events: seq<Event>)
    requires EachStep(Boot(catalog, saved), events, Allowed)
    requires EachStep(Boot(catalog, saved), events, PreserveProgress.Plausible)
    ensures var s := Boot(catalog, saved);
            && PreserveProgress.Shown(RunFrom(s, events))
            && forall i | 0 <= i < |events| :: PreserveProgress.ClimbsAt(s, events, i)
  {
    hide PreserveProgress.Shown, PreserveProgress.ClimbsAt, EachStep, RunFrom, Boot, Sound;
    BootSound(catalog, saved);
    BootShown(catalog, saved);
    PreserveProgress.ProgressOnlyClimbs(Boot(catalog, saved), events);
  }

  lemma BootShown(catalog: Catalog, saved: Rows)
    ensures PreserveProgress.Shown(Boot(catalog, saved)) && PreserveOutcomes.FewTries(Boot(catalog, saved))
  {
  }

  lemma EveryProcessReseedsBriefly(catalog: Catalog, saved: Rows, events: seq<Event>)
    ensures RunFrom(Boot(catalog, saved), events).reseed.tried <= 4
  {
    hide RunFrom, Boot, PreserveOutcomes.FewTries, PreserveProgress.Shown;
    BootShown(catalog, saved);
    PreserveOutcomes.ReseedTriesFew(Boot(catalog, saved), events);
  }

  // While storage names its files by CIDs of its own, only items preserved from the archive hold any.
  lemma {:induction false} EveryProcessStoresArchiveItemsOnly(catalog: Catalog, saved: Rows, events: seq<Event>)
    requires forall id | id in saved && id in catalog && saved[id].storedCids != [] ::
               PreserveUnpins.HoldsFiles(catalog, saved, id)
    requires EachStep(Boot(catalog, saved), events, PreserveUnpins.NamesOwnCids)
    ensures PreserveUnpins.StoredByPreserve(RunFrom(Boot(catalog, saved), events))
    decreases |events|
  {
    hide PreserveUnpins.StoredByPreserve, PreserveUnpins.NamesOwnCids, PreserveUnpins.HoldsFiles, EachStep, Boot, Step;
    var s := Boot(catalog, saved);
    if events == [] {
      PreserveUnpins.BootStored(catalog, saved);
    } else {
      EachStepPrefix(s, events, PreserveUnpins.NamesOwnCids);
      EveryProcessStoresArchiveItemsOnly(catalog, saved, events[..|events| - 1]);
      PreserveUnpins.StepStored(RunFrom(s, events[..|events| - 1]), events[|events| - 1]);
    }
  }

  // ----- one guard for both -----

  // In step, what is allowed keeps the owners.
  lemma AllowedKeepsOwners(s: Plugin, e: Event)
    requires Sound(s) && Allowed(s, e)
    ensures KeepsOwners(s, e)
  {
    hide Honest, BetweenFiles, FileSent, Untouched, Retryable, ReseedRefused;
    if e.PinDone? && !e.ok && !ReseedRefused(s, OwnerOf(s.pins, e.cid)) {
      NoReseedYet(s, OwnerOf(s.pins, e.cid));
    }
  }

  // So a process of allowed events is owned at every point.
  lemma {:induction false} AllowedRunsAreOwned(s: Plugin, events: seq<Event>)
    requires Sound(s) && EachStep(s, events, Allowed)
    ensures EachStep(s, events, KeepsOwners)
  {
    hide Sound, Allowed, EachStep, KeepsOwners, Throughout, RunFrom, Step;
    if events == [] {
      NoSteps(s, KeepsOwners);
    } else {
      var before, e := events[..|events| - 1], events[|events| - 1];
      EachStepPrefix(s, events, Allowed);
      EachStepPrefix(s, events, KeepsOwners);
      AllowedRunsAreOwned(s, before);
      InStepThroughout(s, before);
      AtTheEnd(s, before, Sound);
      AllowedKeepsOwners(RunFrom(s, before), e);
    }
  }

  // ----- a process that preserves one item -----

  // From the start of a process: storage comes up, the item's manifest and files arrive, pass and are stored,
  // and the item is mirrored with the CIDs in manifest order.
  lemma FromStartToMirrored(catalog: Catalog, saved: Rows, id: string, body: seq<Token>,
                            contents: seq<Option<Digests>>, cids: seq<string>)
    requires id in saved && id != "" && Retryable(catalog, id)
    requires Parsed(body) != [] && |contents| == |cids| == |Parsed(body)|
    requires forall i | 0 <= i < |cids| :: cids[i] != "" && Passing(contents[i], Parsed(body)[i])
    ensures var s := Step(Boot(catalog, saved), StorageState(Storage.Ready));
            var r := RunFrom(s, ServeItem(s, id, body, contents, cids));
            && r.ia.item == "" && id in r.rows && r.rows[id] == Row(Mirrored, 0, cids) && |r.completed| == 1
  {
    hide RunFrom, VerifyIaFile, Parsed, ServeItem, Retryable;
    Known(catalog, id);
    Ready(catalog, saved, id);
    ServedItemIsMirrored(Step(Boot(catalog, saved), StorageState(Storage.Ready)), id, body, contents, cids);
  }

  lemma Ready(catalog: Catalog, saved: Rows, id: string)
    requires id in saved && id != "" && id in catalog
    ensures var s := Step(Boot(catalog, saved), StorageState(Storage.Ready));
            && Idle(s) && !s.uploading && id in s.rows && s.catalog == catalog && s.completed == []
            && s.pins == NO_PINS && s.nextDownload == 1
  {
  }

  // ----- a process whose upload is outstanding when a pin fails -----

  // `b` is pinned, and `a` is preserved until its first file is on its way to storage.
  function UntilSent(a: string, b: string, body: seq<Token>): seq<Event> {
    [StorageState(Storage.Ready), Mirror(b)] + [Mirror(a), Reply(1, true, body, None, true)] +
    [Reply(2, true, [], Matching(FirstOf(body)), true)]
  }

  function FirstOf(body: seq<Token>): IaFileEntry {
    if Parsed(body) == [] then NO_ENTRY else Parsed(body)[0]
  }

  // The upload of `a` is outstanding beside the pin of `b`, whose failure re-seeds.
  predicate SentBesidePin(s: Plugin, a: string, b: string, cid: string) {
    && Sound(s) && s.ia.item == a && s.reseed.item == "" && s.uploading
    && a in s.rows && b in s.rows && b != ""
    && s.pins == Pins(map[cid := b], map[], {cid}, multiset{}) && !ReseedRefused(s, b)
    && s.completed == [] && s.settled == []
  }

  lemma PinFromStart(catalog: Catalog, saved: Rows, b: string)
    requires b in saved && b in catalog && b != "" && !FromArchive(catalog[b].cid)
    ensures var s := Step(Boot(catalog, saved), StorageState(Storage.Ready));
            var r := Step(s, Mirror(b));
            && Idle(r) && !r.uploading && r.rows.Keys == s.rows.Keys && r.catalog == catalog && r.nextDownload == 1
            && r.pins == Pins(map[catalog[b].cid := b], map[], {catalog[b].cid}, multiset{})
            && r.completed == [] && r.settled == []
  {
    hide FromArchive, ArchiveId;
    Ready(catalog, saved, b);
  }

  lemma SameRefused(s: Plugin, r: Plugin, b: string)
    requires b in s.rows && b in r.rows && r.catalog == s.catalog && s.reseed.item == "" && r.reseed.item == ""
    ensures ReseedRefused(r, b) == ReseedRefused(s, b)
  {
    hide Labels.Candidates, NoFile;
  }

  lemma FirstFileSent(s: Plugin, a: string, body: seq<Token>)
    requires Sound(s) && Idle(s) && !s.uploading && a in s.rows && Retryable(s.catalog, a) && a != "" && s.nextDownload == 1
    requires Parsed(body) != []
    ensures var r := Step(RunFrom(s, [Mirror(a), Reply(1, true, body, None, true)]),
                          Reply(2, true, [], Matching(FirstOf(body)), true));
            && Sound(r) && r.ia.item == a && r.reseed == s.reseed && r.uploading && r.pins == s.pins
            && r.rows.Keys == s.rows.Keys && r.catalog == s.catalog && r.completed == s.completed && r.settled == s.settled
  {
    hide Sound, Idle, Retryable, Fetching, Untouched, RunFrom, VerifyIaFile, Step, Parsed, Matching;
    StartServed(s, a);
    var s1 := Step(s, Mirror(a));
    ManifestServed(s1, body);
    var s2 := Step(s1, Reply(1, true, body, None, true));
    TwoSteps(s, Mirror(a), Reply(1, true, body, None, true));
    MatchingPasses(FirstOf(body));
    ServedDownload(s2, Matching(FirstOf(body)));
    StepSound(s, Mirror(a));
    StepSound(s1, Reply(1, true, body, None, true));
    StepSound(s2, Reply(2, true, [], Matching(FirstOf(body)), true));
  }

  lemma ReachesSent(catalog: Catalog, saved: Rows, a: string, b: string, body: seq<Token>)
    requires a in saved && a != "" && Retryable(catalog, a) && Parsed(body) != []
    requires b in saved && b != "" && b in catalog && !FromArchive(catalog[b].cid)
    requires !ReseedRefused(Boot(catalog, saved), b)
    ensures SentBesidePin(RunFrom(Boot(catalog, saved), UntilSent(a, b, body)), a, b, catalog[b].cid)
  {
    hide RunFrom, Retryable, Sound, FromArchive, Parsed, ReseedRefused, Step, Matching, Idle, Boot;
    var s0 := Boot(catalog, saved);
    var e1, e2 := StorageState(Storage.Ready), Mirror(b);
    var e3, e4 := Mirror(a), Reply(1, true, body, None, true);
    var e5 := Reply(2, true, [], Matching(FirstOf(body)), true);
    BootSound(catalog, saved);
    Known(catalog, a);
    Ready(catalog, saved, a);
    PinFromStart(catalog, saved, b);
    TwoSteps(s0, e1, e2);
    var s2 := Step(Step(s0, e1), e2);
    StepSound(s0, e1);
    StepSound(Step(s0, e1), e2);
    NoReseed(s2);
    FirstFileSent(s2, a, body);
    var s4 := RunFrom(s2, [e3, e4]);
    OneStep(s4, e5);
    RunsJoin(s0, [e1, e2], [e3, e4]);
    RunsJoin(s0, [e1, e2] + [e3, e4], [e5]);
    BootRows(catalog, saved, b);
    SameRefused(s0, Step(s4, e5), b);
  }

  lemma OneStep(s: Plugin, e: Event)
    ensures RunFrom(s, [e]) == Step(s, e)
  {
    hide Step;
    assert [e][..0] == [];
    assert RunFrom(s, [e]) == Step(RunFrom(s, []), e);
  }

  lemma Known(catalog: Catalog, a: string)
    requires Retryable(catalog, a)
    ensures a in catalog
  {
  }

  lemma NoReseed(s: Plugin)
    requires Idle(s)
    ensures s.reseed.item == ""
  {
  }

  lemma BootRows(catalog: Catalog, saved: Rows, b: string)
    requires b in saved && b in catalog && b != ""
    ensures b in Boot(catalog, saved).rows && Boot(catalog, saved).reseed.item == "" && Boot(catalog, saved).catalog == catalog
    ensures Boot(catalog, saved).rows.Keys == Step(Boot(catalog, saved), StorageState(Storage.Ready)).rows.Keys
  {
  }

  // The whole run from the start: the pin of `b` fails, the file its re-seed downloaded is refused, which sets
  // `a` back to pending, and the upload of `a` then ends the re-seed. `b` says "mirrored", and nothing of it was
  // stored.
  lemma OthersUploadFromTheStart(catalog: Catalog, saved: Rows, a: string, b: string, body: seq<Token>,
                                 content: Option<Digests>, accepted: bool, kept: string)
    requires a in saved && a != "" && Retryable(catalog, a) && Parsed(body) != []
    requires b in saved && b != "" && b != a && b in catalog && !FromArchive(catalog[b].cid)
    requires !ReseedRefused(Boot(catalog, saved), b)
    ensures var s := RunFrom(Boot(catalog, saved), UntilSent(a, b, body));
            var s1 := Step(s, PinDone(catalog[b].cid, false));
            var r := Step(Step(s1, Reply(s.nextDownload, true, [], content, accepted)), UploadDone(true, kept));
            && b in r.rows && r.rows[b].state == Mirrored && a in r.rows && r.rows[a].state == Pending
            && r.completed == [] && r.settled == [Settled(b, false)]
            && !Allowed(s, PinDone(catalog[b].cid, false))
  {
    hide RunFrom, Retryable, FromArchive, Parsed, ReseedRefused, Step, UntilSent, Boot, Sound;
    ReachesSent(catalog, saved, a, b, body);
    PreserveOutcomes.ReseedBesideUpload(
      RunFrom(Boot(catalog, saved), UntilSent(a, b, body)), catalog[b].cid, [], content, accepted, kept);
  }

  lemma CancelStrands(s: Plugin, a: string)
    requires Sound(s) && s.ia.item == a && a != "" && s.uploading
    ensures var r := Step(s, Abort(a));
            && r.ia.item == "" && r.reseed == s.reseed && r.uploading && r.downloads == map[] && r.pins == s.pins
            && r.rows.Keys == s.rows.Keys && r.catalog == s.catalog
  {
    hide Honest, BetweenFiles, FileSent, Untouched, Retryable, WithoutId;
    assert s.downloads - {s.ia.tracked} == map[];
  }

  // The same run up to the pin's failure, `a` cancelled before it: the upload left behind completes, and the
  // re-seed's next report leaves `b` mirroring with nobody at work on it.
  lemma StrandedFromTheStart(catalog: Catalog, saved: Rows, a: string, b: string, body: seq<Token>,
                             kept: string, recv: int, size: int)
    requires a in saved && a != "" && Retryable(catalog, a) && Parsed(body) != []
    requires b in saved && b != "" && b in catalog && !FromArchive(catalog[b].cid)
    requires !ReseedRefused(Boot(catalog, saved), b)
    ensures var s := Step(RunFrom(Boot(catalog, saved), UntilSent(a, b, body)), Abort(a));
            var r := Step(Step(s, PinDone(catalog[b].cid, false)), UploadDone(true, kept));
            var r' := Step(r, Progress(s.nextDownload, recv, size));
            && b in r.rows && r.rows[b].state == Mirrored && s.nextDownload in r.downloads
            && b in r'.rows && r'.rows[b].state == Mirroring && !HasOwner(r', b)
            && !KeepsOwners(s, PinDone(catalog[b].cid, false))
  {
    hide RunFrom, Retryable, FromArchive, Parsed, ReseedRefused, Step, UntilSent, Boot, HasOwner, Sound;
    ReachesSent(catalog, saved, a, b, body);
    var s := RunFrom(Boot(catalog, saved), UntilSent(a, b, body));
    CancelStrands(s, a);
    SameRefused(s, Step(s, Abort(a)), b);
    PreserveOutcomes.StrandedUploadSettlesReseed(Step(s, Abort(a)), catalog[b].cid, kept, recv, size);
  }
}
