/** Why exactly those steps keep the owners. A state is safe when no continuation ever shows a row as mirroring
    with nobody at work on it. From a machine whose rows are owned, a step leads to a safe state if and only if it
    keeps the owners: after each step that does not, an upload can complete the running reseed while the reseed's
    download goes on, and the download's next report sets the row back to "mirroring". */
module PreserveAccounting {
  import opened Basics
  import opened Inscriptions
  import opened IaFiles
  import opened PreserveSteps
  import opened PreserveOwnership
  import opened PreserveServed
  import Labels
  import Storage = StorageClients

  // Whatever events come that keep the owners, every mirroring row is accounted for.
  ghost predicate SafeOwners(s: Plugin) {
    Always(s, MirroringAccounted, KeepsOwners)
  }

  lemma OwnedIsSafe(s: Plugin)
    requires Owned(s)
    ensures SafeOwners(s)
  {
    hide Owned, KeepsOwners, MirroringAccounted, RunFrom, EachStep;
    forall events | EachStep(s, events, KeepsOwners) ensures MirroringAccounted(RunFrom(s, events)) {
      MirroringIsOwned(s, events);
    }
  }

  // ----- a reseed completed by another's upload -----

  // A candidate of the running reseed is being downloaded, and every CID in the books has its answer to come.
  predicate Downloading(s: Plugin, t: nat) {
    && t in s.downloads && s.downloads[t].CandidateTask? && s.downloads[t].item == s.reseed.item != ""
    && s.reseed.item in s.catalog && Booked(s.catalog, s.pins)
  }

  // An upload is outstanding that only the reseed can take.
  predicate Stray(s: Plugin, t: nat) {
    Downloading(s, t) && s.ia.item == "" && s.uploading
  }

  // The reseed's row is listed.
  lemma RowListed(s: Plugin)
    requires s.reseed.item != "" && s.reseed.item in s.catalog
    ensures var r := Step(s, Discover(false, [s.reseed.item]));
            s.reseed.item in r.rows && r == s.(rows := r.rows)
  {
    assert s.reseed.item in [s.reseed.item];
  }

  // Its reseed over, the download's next report shows the row again.
  lemma ShownAgain(s: Plugin, t: nat)
    requires t in s.downloads && s.downloads[t].CandidateTask? && s.downloads[t].item in s.rows && s.downloads[t].item != ""
    requires s.ia.item == "" && s.reseed.item == "" && s.pins.cidToItem == map[]
    ensures !MirroringAccounted(Step(s, Progress(t, 0, 0)))
  {
    hide FilePercent;
    var y, r := s.downloads[t].item, Step(s, Progress(t, 0, 0));
    assert y in r.rows && r.rows[y].state == Mirroring && r.pins.cidToItem.Values == {};
  }

  // No CID is in the books: the upload completes the reseed while its download goes on.
  lemma StrayCompletes(s: Plugin, t: nat)
    requires Stray(s, t) && s.pins.cidToItem == map[]
    ensures !Always(s, MirroringAccounted, KeepsOwners)
  {
    hide Always, Booked, DownloadProgress, Discovered, MirroringAccounted;
    var e, f, g := Discover(false, [s.reseed.item]), UploadDone(true, "x"), Progress(t, 0, 0);
    RowListed(s);
    var s1 := Step(s, e);
    var s2 := Step(s1, f);
    ShownAgain(s2, t);
    NowFails(Step(s2, g), MirroringAccounted, KeepsOwners);
    FailsOneBefore(s2, g, MirroringAccounted, KeepsOwners);
    FailsOneBefore(s1, f, MirroringAccounted, KeepsOwners);
    FailsOneBefore(s, e, MirroringAccounted, KeepsOwners);
  }

  // The answer that takes one CID out of the books.
  function Answer(s: Plugin, cid: string): Event {
    if cid in s.pins.pinning then PinDone(cid, true) else UnpinDone(cid, true)
  }

  lemma OneAnswered(s: Plugin, t: nat, cid: string)
    requires Stray(s, t) && cid in s.pins.cidToItem
    ensures var r := Step(s, Answer(s, cid));
            Stray(r, t) && r.pins.cidToItem == s.pins.cidToItem - {cid} && KeepsOwners(s, Answer(s, cid))
  {
    hide SetState, SetStored, OwnerOf, Booked;
    var r := Step(s, Answer(s, cid));
    if cid in s.pins.pinning {
      PinTakes(s.pins, cid);
      StillBooked(s.catalog, s.pins, r.pins, cid);
    } else {
      InTheBooks(s.catalog, s.pins, cid);
      UnpinTakes(s, cid, true);
      UnpinKeeps(s, cid);
      StillBooked(s.catalog, s.pins, r.pins, cid);
    }
  }

  lemma PinTakes(p: Pins, cid: string)
    ensures Taken(p, p.(cidToItem := p.cidToItem - {cid}, pinning := p.pinning - {cid}), cid)
  {
  }

  lemma InTheBooks(catalog: Catalog, p: Pins, cid: string)
    requires Booked(catalog, p) && cid in p.cidToItem && cid !in p.pinning
    ensures cid in p.unpinning
  {
  }

  lemma UnpinKeeps(s: Plugin, cid: string)
    ensures var r := UnpinFinished(s, cid, true);
            && r == s.(pins := r.pins, rows := r.rows)
            && (cid in s.pins.unpinning ==> r.pins.cidToItem == s.pins.cidToItem - {cid})
  {
    hide SetState, SetStored, OwnerOf;
  }

  // First the books are emptied.
  lemma {:induction false} StrayIsUnsafe(s: Plugin, t: nat)
    requires Stray(s, t)
    ensures !Always(s, MirroringAccounted, KeepsOwners)
    decreases |s.pins.cidToItem|
  {
    hide Stray, Always, KeepsOwners, Step;
    if s.pins.cidToItem == map[] {
      StrayCompletes(s, t);
    } else {
      var cid :| cid in s.pins.cidToItem;
      OneAnswered(s, t, cid);
      var r := Step(s, Answer(s, cid));
      assert r.pins.cidToItem.Keys == s.pins.cidToItem.Keys - {cid};
      StrayIsUnsafe(r, t);
      FailsOneBefore(s, Answer(s, cid), MirroringAccounted, KeepsOwners);
    }
  }

  // ----- an upload whose running item may lose it -----

  // The item's other download fails and ends the item; its upload is then for the reseed.
  lemma LosesUpload(s: Plugin, t: nat, u: nat)
    requires Downloading(s, t) && s.ia.item != "" && s.uploading
    requires u in s.downloads && !s.downloads[u].CandidateTask?
    ensures !Always(s, MirroringAccounted, KeepsOwners)
  {
    hide Always, Booked, SetState;
    var e := Reply(u, false, [], None, false);
    assert Step(s, e) == IaFail(s.(downloads := s.downloads - {u}));
    StrayIsUnsafe(Step(s, e), t);
    FailsOneBefore(s, e, MirroringAccounted, KeepsOwners);
  }

  // One of two downloads of the item arrives and is handed to storage.
  lemma FileBeside(s: Plugin, t: nat, u: nat, v: nat)
    requires Downloading(s, t) && s.ia.item != "" && !s.uploading && u != v
    requires u in s.downloads && s.downloads[u].FileTask?
    requires v in s.downloads && !s.downloads[v].CandidateTask?
    ensures !Always(s, MirroringAccounted, KeepsOwners)
  {
    hide Always, Booked, VerifyIaFile, Matching;
    var entry := s.downloads[u].entry;
    MatchingPasses(entry);
    var e := Reply(u, true, [], Matching(entry), true);
    var r := Step(s, e);
    assert r.uploading && r.downloads == s.downloads - {u} && r.ia.item == s.ia.item && r.reseed == s.reseed;
    LosesUpload(r, t, v);
    FailsOneBefore(s, e, MirroringAccounted, KeepsOwners);
  }

  // A manifest long enough for the run to go on from wherever it is.
  function ManyFiles(n: nat): seq<Node> {
    if n == 0 then [] else [Element("file", "f", [])] + ManyFiles(n - 1)
  }

  lemma {:induction false} ManyFilesRead(n: nat)
    ensures AllWellShaped(ManyFiles(n)) && |FilesInAll(ManyFiles(n))| == n
  {
    if n > 0 {
      ManyFilesRead(n - 1);
      assert ManyFiles(n)[1..] == ManyFiles(n - 1);
      assert FilesIn(Element("file", "f", [])) == [EntryOf("f", [])];
    }
  }

  function LongManifest(n: nat): seq<Token> {
    Tokens(Element("files", "", ManyFiles(n)))
  }

  lemma LongManifestRead(n: nat)
    ensures |Parsed(LongManifest(n))| == n
  {
    hide Scan, AllWellShaped;
    ManyFilesRead(n);
    ParseReadsDocument(Element("files", "", ManyFiles(n)));
  }

  lemma ManifestBeside(s: Plugin, t: nat, u: nat, v: nat)
    requires Downloading(s, t) && s.ia.item != "" && !s.uploading && u != v && FreshTokens(s)
    requires u in s.downloads && s.downloads[u].ManifestTask?
    requires v in s.downloads && !s.downloads[v].CandidateTask?
    ensures !Always(s, MirroringAccounted, KeepsOwners)
  {
    hide Always, Booked, LongManifest, Parsed, SumSizes;
    LongManifestRead(s.ia.idx + 1);
    var e := Reply(u, true, LongManifest(s.ia.idx + 1), None, true);
    var r := Step(s, e);
    assert s.nextDownload in r.downloads && r.downloads[s.nextDownload].FileTask?;
    assert t in r.downloads && v in r.downloads && r.reseed == s.reseed && r.ia.item == s.ia.item;
    FileBeside(r, t, s.nextDownload, v);
    FailsOneBefore(s, e, MirroringAccounted, KeepsOwners);
  }

  lemma UnclearIsUnsafe(s: Plugin, t: nat)
    requires Downloading(s, t) && FreshTokens(s) && !Clear(s)
    ensures !Always(s, MirroringAccounted, KeepsOwners)
  {
    hide Always, FreshTokens, Downloading, KeepsOwners;
    if s.ia.item == "" {
      StrayIsUnsafe(s, t);
    } else if s.uploading {
      var u :| u in s.downloads && !s.downloads[u].CandidateTask?;
      LosesUpload(s, t, u);
    } else {
      var u, v :| u in s.downloads && v in s.downloads && u != v
                  && !s.downloads[u].CandidateTask? && !s.downloads[v].CandidateTask?;
      if s.downloads[u].FileTask? {
        FileBeside(s, t, u, v);
      } else {
        ManifestBeside(s, t, u, v);
      }
    }
  }

  // ----- exactly the steps that keep the owners -----

  lemma BadAbort(s: Plugin, id: string)
    requires Owned(s) && !KeepsOwners(s, Abort(id))
    ensures !SafeOwners(Step(s, Abort(id)))
  {
    hide Always, Booked, RowsOwned, KnownRows, WithoutId, SetState;
    var t :| t in s.downloads && s.downloads[t].CandidateTask?;
    StrayIsUnsafe(Step(s, Abort(id)), t);
  }

  lemma BadReseed(s: Plugin, cid: string)
    requires Owned(s) && !KeepsOwners(s, PinDone(cid, false))
    ensures !SafeOwners(Step(s, PinDone(cid, false)))
  {
    hide Always, Tidy, Apart, Clear, ReseedRefused, PinFinished;
    var r, id := PinFinished(s, cid, false), OwnerOf(s.pins, cid);
    NewReseed(s, cid);
    UnclearIsUnsafe(r, s.nextDownload);
  }

  lemma NewReseed(s: Plugin, cid: string)
    requires Owned(s) && cid in s.pins.pinning && !ReseedRefused(s, OwnerOf(s.pins, cid)) && !Clear(s)
    ensures var r := PinFinished(s, cid, false);
            Downloading(r, s.nextDownload) && FreshTokens(r) && !Clear(r)
  {
    hide RowsOwned, NoFile, OwnerOf, CandidatesFor, Booked, Labels.Decode;
    var id := OwnerOf(s.pins, cid);
    var p := s.pins.(cidToItem := s.pins.cidToItem - {cid}, pinning := s.pins.pinning - {cid});
    PinTakes(s.pins, cid);
    StillBooked(s.catalog, s.pins, p, cid);
    SameChoice(s, s.(pins := p), id);
    Named(s.(pins := p), id);
    var r := PinFinished(s, cid, false);
    assert forall t | t in s.downloads :: t in r.downloads && r.downloads[t] == s.downloads[t];
  }

  // From a machine whose rows are owned, a step keeps the owners if and only if no continuation of steps that
  // keep them ever shows a row as mirroring that nobody works on.
  lemma KeepsOwnersIsExact(s: Plugin, e: Event)
    requires Owned(s)
    ensures KeepsOwners(s, e) <==> SafeOwners(Step(s, e))
  {
    hide Owned, SafeOwners, Step, ReseedRefused, HasCandidate, Clear;
    if KeepsOwners(s, e) {
      StepOwned(s, e);
      OwnedIsSafe(Step(s, e));
    } else if e.Abort? {
      BadAbort(s, e.id);
    } else {
      BadReseed(s, e.cid);
    }
  }

  // Over whole runs, restarts included: every event kept the owners if and only if at no point a row was, or by
  // events that keep the owners could come to be, mirroring with nobody at work on it.
  lemma MirroringIsAccounted(s: Plugin, events: seq<Event>)
    requires Owned(s)
    ensures EachStep(s, events, KeepsOwners) <==> Throughout(s, events, SafeOwners)
  {
    hide Owned, KeepsOwners, MirroringAccounted, Step, RunFrom, EachStep, Always;
    OwnedIsSafe(s);
    forall p, e | Owned(p)
      ensures KeepsOwners(p, e) <==> SafeOwners(Step(p, e))
      ensures KeepsOwners(p, e) ==> Owned(Step(p, e))
    {
      KeepsOwnersIsExact(p, e);
      StepOwned(p, e);
    }
    AlwaysIffAllowed(s, events, Owned, MirroringAccounted, KeepsOwners);
  }
}
