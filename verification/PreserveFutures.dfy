/** Why exactly those steps are allowed. A state is safe when no continuation of allowed events ever ends an
    item preserve inexactly or a reseed by a file that is not its own. From a machine in step, a step leads to a
    safe state if and only if it is allowed: after each step that is not, some allowed continuation ends an item
    "mirrored" that was not stored. */
module PreserveFutures {
  import opened Basics
  import opened Inscriptions
  import opened IaFiles
  import opened PreserveSteps
  import opened PreserveRuns
  import opened PreserveServed
  import Labels
  import Storage = StorageClients

  // Whatever allowed events come, every item preserve that has ended in "mirrored" is exact, and every reseed
  // that has was ended by the upload of its own file.
  ghost predicate Safe(s: Plugin) {
    Always(s, Honest, Allowed)
  }

  // ----- being in step is safe -----

  lemma SoundIsSafe(s: Plugin)
    requires Sound(s)
    ensures Safe(s)
  {
    hide Sound, Allowed, RunFrom, EachStep, Throughout;
    forall events | EachStep(s, events, Allowed) ensures Honest(RunFrom(s, events)) {
      CompletedAreExact(s, events);
    }
  }

  lemma SoundIsExact(s: Plugin)
    requires Sound(s)
    ensures Honest(s)
  {
    hide InStep, Honest;
  }

  // ----- reaching an inexact run -----

  lemma InexactIsUnsafe(s: Plugin)
    requires !Honest(s)
    ensures !Safe(s)
  {
    hide Honest, Allowed, Always;
    NowFails(s, Honest, Allowed);
  }

  // The run being fetched has fewer acts or fewer CIDs than files behind it; it will end that way.
  predicate Behind(s: Plugin) {
    Fetching(s) && (|s.ia.stored| != s.ia.idx || |s.ia.acts| != 3 * s.ia.idx)
  }

  lemma BehindIsUnsafe(s: Plugin)
    requires Behind(s)
    ensures !Safe(s)
  {
    hide Fetching, RunFrom, EachStep, Allowed, VerifyIaFile, Always, Matching;
    FetchingFacts(s);
    var n := |s.ia.files| - s.ia.idx;
    var contents := seq(n, i requires 0 <= i < n => Matching(s.ia.files[s.ia.idx + i]));
    var cids := seq(n, i => "x");
    forall i | 0 <= i < n ensures Passing(contents[i], s.ia.files[s.ia.idx + i]) {
      MatchingPasses(s.ia.files[s.ia.idx + i]);
    }
    var events := ServeFiles(s.ia.tracked, contents, cids);
    FilesServed(s, contents, cids);
    EndsInexact(s, RunFrom(s, events), s.ia.stored + cids, |s.ia.acts| + 3 * n);
    InexactIsUnsafe(RunFrom(s, events));
    FailsBefore(s, events, Honest, Allowed);
  }

  lemma EndsInexact(s: Plugin, r: Plugin, stored: seq<string>, acts: nat)
    requires EndedWith(s, r, stored, acts) && (|stored| != |s.ia.files| || acts != 3 * |s.ia.files| || s.ia.files == [])
    ensures !Honest(r)
  {
    hide InOrder, SumSizes, WithoutChecksum;
    var record := r.completed[|s.completed|];
    assert record in r.completed && !Exact(record);
  }

  // ----- a file without a CID -----

  lemma NoCidIsUnsafe(s: Plugin)
    requires Sound(s) && s.uploading && s.ia.item != ""
    ensures !Safe(Step(s, UploadDone(true, "")))
  {
    hide Honest, Always, Retryable, InOrder, SumSizes, WithoutChecksum, FetchedWell, OneCandidate;
    var s1 := s.(uploading := false, ia := FileStored(s.ia, ""));
    assert FileSent(s.ia) && |s1.ia.stored| != s1.ia.idx && s1.ia.idx <= |s1.ia.files|;
    if s1.ia.idx == |s1.ia.files| {
      FinishedShort(s1);
    } else {
      NextIsBehind(s1);
    }
  }

  lemma FinishedShort(s: Plugin)
    requires s.ia.idx == |s.ia.files|
    requires |s.ia.stored| != |s.ia.files| || |s.ia.acts| != 3 * |s.ia.files| || s.ia.files == []
    ensures !Safe(IaNextFile(s))
  {
    hide Always, IaFinish, AllExact;
    FinishInexact(s);
    InexactIsUnsafe(IaFinish(s));
  }

  lemma NextIsBehind(s: Plugin)
    requires s.ia.item != "" && s.ia.idx < |s.ia.files| && !s.uploading
    requires |s.ia.stored| != s.ia.idx || |s.ia.acts| != 3 * s.ia.idx
    ensures !Safe(IaNextFile(s))
  {
    hide Always;
    assert Behind(IaNextFile(s));
    BehindIsUnsafe(IaNextFile(s));
  }

  // ----- an upload or a reseed's download left behind -----

  // Nothing runs, and the archive item `a` can be started.
  predicate Restartable(s: Plugin, a: string) {
    s.ia.item == "" && s.reseed.item == "" && a != "" && Retryable(s.catalog, a)
  }

  // The item `a` waits for its manifest; the rest is as in `s`.
  predicate Restarted(s: Plugin, r: Plugin, a: string) {
    && r.ia.item == a && Untouched(r.ia) && r.reseed == s.reseed && r.uploading == s.uploading
    && r.completed == s.completed
    && s.nextDownload == r.ia.tracked && r.nextDownload == r.ia.tracked + 1
    && r.downloads == s.downloads[r.ia.tracked := ManifestTask(r.ia.iaId)]
  }

  // Listed if it no longer was, and started by hand once storage is ready.
  function Relist(a: string): seq<Event> {
    [StorageState(Storage.Offline), Discover(false, [a])]
  }

  lemma Relisted(s: Plugin, a: string)
    requires Restartable(s, a)
    ensures var r := RunFrom(s, Relist(a));
            && a in r.rows && r == s.(rows := r.rows, storage := Storage.Offline)
    ensures EachStep(s, Relist(a), Allowed)
  {
    hide RunFrom, EachStep, Retryable, Discovered;
    TwoSteps(s, Relist(a)[0], Relist(a)[1]);
    Listed(s, a);
    OfflineDiscovery(s.(storage := Storage.Offline), a);
  }

  lemma OfflineDiscovery(s: Plugin, a: string)
    requires s.storage == Storage.Offline && a in s.catalog && a != ""
    ensures var r := Discovered(s, false, [a]); a in r.rows && r == s.(rows := r.rows)
  {
    assert a in [a];
  }

  lemma Listed(s: Plugin, a: string)
    requires Retryable(s.catalog, a)
    ensures a in s.catalog
  {
  }

  lemma StartedAgain(s: Plugin, a: string)
    requires Restartable(s, a) && a in s.rows
    ensures Restarted(s, RunFrom(s, [StorageState(Storage.Ready), Mirror(a)]), a)
    ensures EachStep(s, [StorageState(Storage.Ready), Mirror(a)], Allowed)
  {
    hide RunFrom, EachStep;
    TwoSteps(s, StorageState(Storage.Ready), Mirror(a));
  }

  lemma RestartedLikewise(s: Plugin, m: Plugin, r: Plugin, a: string)
    requires m == s.(rows := m.rows, storage := m.storage)
    ensures Restarted(m, r, a) == Restarted(s, r, a)
  {
  }

  lemma RestartAllowed(s: Plugin, a: string) returns (events: seq<Event>)
    requires Restartable(s, a)
    ensures EachStep(s, events, Allowed) && Restarted(s, RunFrom(s, events), a)
  {
    hide RunFrom, EachStep, Allowed, Retryable, Restarted;
    Relisted(s, a);
    var m := RunFrom(s, Relist(a));
    var go := [StorageState(Storage.Ready), Mirror(a)];
    StartedAgain(m, a);
    RunsJoin(s, Relist(a), go);
    EachJoins(s, Relist(a), go, Allowed);
    RestartedLikewise(s, m, RunFrom(m, go), a);
    events := Relist(a) + go;
  }

  // A completion that reaches a run before its manifest ends the run with nothing fetched.
  lemma EarlyCompletion(s: Plugin)
    requires s.ia.item != "" && s.ia.files == [] && s.uploading
    ensures !Safe(s)
  {
    hide Always, AllExact;
    var r := Step(s, UploadDone(true, "x"));
    FinishInexact(s.(uploading := false, ia := FileStored(s.ia, "x")));
    InexactIsUnsafe(r);
    FailsOneBefore(s, UploadDone(true, "x"), Honest, Allowed);
  }

  lemma StrandedUploadIsUnsafe(s: Plugin, a: string)
    requires Restartable(s, a) && s.uploading
    ensures !Safe(s)
  {
    hide Always, RunFrom, EachStep, Retryable;
    var events := RestartAllowed(s, a);
    EarlyCompletion(RunFrom(s, events));
    FailsBefore(s, events, Honest, Allowed);
  }

  // The candidate's file is handed to storage while the item waits for its manifest.
  lemma CandidateStored(s: Plugin, t: nat)
    requires s.ia.item != "" && s.ia.files == [] && !s.uploading
    requires t in s.downloads && s.downloads[t].CandidateTask?
    ensures !Safe(s)
  {
    hide Always;
    var e := Reply(t, true, [], None, true);
    EarlyCompletion(Step(s, e));
    FailsOneBefore(s, e, Honest, Allowed);
  }

  lemma AbortIsUnsafe(s: Plugin)
    requires Sound(s) && s.uploading && s.ia.item != ""
    ensures !Safe(Step(s, Abort(s.ia.item)))
  {
    hide Always, Retryable, Honest, FileSent, BetweenFiles, Untouched, WithoutId;
    StrandedUploadIsUnsafe(Step(s, Abort(s.ia.item)), s.ia.item);
  }

  // ----- a reseed beside a running item -----

  // The candidate's file is taken for the current file of the item, which is skipped.
  lemma CandidateTakesFile(s: Plugin, t: nat)
    requires s.ia.item != "" && s.ia.idx < |s.ia.files| && |s.ia.acts| == 3 * s.ia.idx && !s.uploading
    requires t in s.downloads && s.downloads[t].CandidateTask?
    ensures !Safe(s)
  {
    hide Always;
    var e, f := Reply(t, true, [], None, true), UploadDone(true, "x");
    var s1 := Step(s, e);
    assert s1 == s.(downloads := s.downloads - {t}, uploading := true, cargo := s.downloads[t].item);
    var s2 := s1.(uploading := false, ia := FileStored(s.ia, "x"));
    assert Step(s1, f) == IaNextFile(s2);
    if s2.ia.idx == |s2.ia.files| {
      FinishedShort(s2);
    } else {
      NextIsBehind(s2);
    }
    FailsOneBefore(s1, f, Honest, Allowed);
    FailsOneBefore(s, e, Honest, Allowed);
  }

  // While the item's file is being stored, the candidate's file is refused, which sets the item back to pending;
  // the item's upload then completes the reseed.
  lemma ForeignUploadIsUnsafe(s: Plugin, t: nat)
    requires s.ia.item != "" && s.reseed.item != "" && s.uploading && s.cargo == ""
    requires t in s.downloads && s.downloads[t].CandidateTask?
    ensures !Safe(s)
  {
    hide Always, AllExact;
    var e, f := Reply(t, true, [], None, true), UploadDone(true, "x");
    var s1 := Step(s, e);
    assert s1 == IaPending(s.(downloads := s.downloads - {t}));
    var r := Step(s1, f);
    assert r.settled == s.settled + [Settled(s.reseed.item, false)];
    assert r.settled[|s.settled|] in r.settled;
    InexactIsUnsafe(r);
    FailsOneBefore(s1, f, Honest, Allowed);
    FailsOneBefore(s, e, Honest, Allowed);
  }

  lemma JoiningIsUnsafe(s: Plugin, cid: string)
    requires Sound(s) && !Allowed(s, PinDone(cid, false))
    ensures !Safe(Step(s, PinDone(cid, false)))
  {
    hide Always, ReseedRefused, Retryable, AllExact, InOrder, SumSizes, WithoutChecksum, FetchedWell, OneCandidate,
      PinFinished;
    ReseedStarted(s, cid);
    var r, t := PinFinished(s, cid, false), s.nextDownload;
    NoReseedYet(s, OwnerOf(s.pins, cid));
    KnownId(s, OwnerOf(s.pins, cid));
    if s.uploading {
      ForeignUploadIsUnsafe(r, t);
    } else if s.ia.files == [] {
      CandidateStored(r, t);
    } else {
      CandidateTakesFile(r, t);
    }
  }

  lemma NoReseedYet(s: Plugin, id: string)
    requires !ReseedRefused(s, id)
    ensures s.reseed.item == "" && CandidatesFor(s, id) != []
  {
    hide CandidatesFor, NoFile;
  }

  // ----- exactly the allowed steps -----

  lemma DisallowedIsUnsafe(s: Plugin, e: Event)
    requires Sound(s) && !Allowed(s, e)
    ensures !Safe(Step(s, e))
  {
    hide Sound, Always, Step, ReseedRefused;
    if e.Abort? {
      AbortIsUnsafe(s);
    } else if e.PinDone? {
      hide Allowed;
      PinDoneFails(s, e.cid, e.ok);
      JoiningIsUnsafe(s, e.cid);
    } else {
      NoCidIsUnsafe(s);
    }
  }

  lemma PinDoneFails(s: Plugin, cid: string, ok: bool)
    requires !Allowed(s, PinDone(cid, ok))
    ensures !ok
  {
  }

  // From a machine in step, a step is allowed if and only if no allowed continuation of it ever ends an item
  // preserve inexactly or a reseed by another file.
  lemma AllowedIsExact(s: Plugin, e: Event)
    requires Sound(s)
    ensures Allowed(s, e) <==> Safe(Step(s, e))
  {
    hide Sound, Allowed, Always, Step;
    if Allowed(s, e) {
      StepSound(s, e);
      SoundIsSafe(Step(s, e));
    } else {
      DisallowedIsUnsafe(s, e);
    }
  }

  // Over whole runs, restarts included: every event was allowed when it came if and only if the run was safe at
  // every point, that is, neither it nor any allowed continuation from there ended an item preserve "mirrored"
  // without each manifest entry fetched, checked and stored once and in order, or a reseed without its own file
  // stored.
  lemma MirroredMeansStored(s: Plugin, events: seq<Event>)
    requires Sound(s)
    ensures EachStep(s, events, Allowed) <==> Throughout(s, events, Safe)
  {
    hide Sound, Allowed, Honest, Step, RunFrom, EachStep, Always;
    SoundIsSafe(s);
    forall p, e | Sound(p) ensures Allowed(p, e) <==> Safe(Step(p, e)) ensures Allowed(p, e) ==> Sound(Step(p, e)) {
      AllowedIsExact(p, e);
      StepSound(p, e);
    }
    AlwaysIffAllowed(s, events, Sound, Honest, Allowed);
  }

  // In a run of allowed events every item preserve and every reseed that ended in "mirrored" was stored entire.
  lemma CompletedAreExact(s: Plugin, events: seq<Event>)
    requires Sound(s) && EachStep(s, events, Allowed)
    ensures Honest(RunFrom(s, events))
  {
    hide Sound, Allowed, RunFrom, EachStep, Throughout;
    InStepThroughout(s, events);
    AtTheEnd(s, events, Sound);
    SoundIsExact(RunFrom(s, events));
  }
}
