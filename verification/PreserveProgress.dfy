/** The progress a running item preserve shows: between 0 and 100 and never going back, both when the
    manifest gives sizes and when it gives none. */
module PreserveProgress {
  import opened Basics
  import opened Inscriptions
  import opened IaFiles
  import opened PreserveSteps
  import opened PreserveRuns

  predicate Sizes(files: seq<IaFileEntry>) {
    forall f | f in files :: f.size >= 0
  }

  // What the reports of the current download have said so far.
  predicate ReportsFit(ia: IaRun) {
    && 0 <= ia.recv
    && (ia.files == [] ==> ia.recv == 0)
    && (ia.idx < |ia.files| ==>
          if ia.total > 0 then ia.recv <= ia.files[ia.idx].size else ia.announced > 0 ==> ia.recv <= ia.announced)
  }

  // The item in progress is preserved from the Internet Archive, so it is never pinned.
  predicate NeverPinned(s: Plugin) {
    s.ia.item in s.catalog && FromArchive(s.catalog[s.ia.item].cid)
  }

  predicate ShownBelow(rows: Rows, id: string, percent: int) {
    id in rows && rows[id].state == Mirroring ==> 0 <= rows[id].progress <= percent
  }

  predicate Shown(s: Plugin) {
    s.ia.item != "" ==>
      && Sizes(s.ia.files) && ReportsFit(s.ia) && NeverPinned(s)
      && 0 <= Percent(s.ia) <= 100 && ShownBelow(s.rows, s.ia.item, Percent(s.ia))
  }

  // What is taken for granted of the network: sizes are not negative; within one download the bytes received
  // do not shrink, stay within the listed size, or, without listed sizes, within one announced total.
  predicate Plausible(s: Plugin, e: Event) {
    match e
    case Reply(_, _, body, _, _) => Sizes(Parsed(body))
    case Progress(token, recv, size) =>
      token in s.downloads && s.downloads[token].FileTask? && s.ia.idx < |s.ia.files| ==>
        && s.ia.recv <= recv
        && (if s.ia.total > 0 then recv <= s.ia.files[s.ia.idx].size
            else (s.ia.announced > 0 ==> size == s.ia.announced) && (size > 0 ==> recv <= size))
    case _ => true
  }

  // ----- the two formulas -----

  lemma QuotientMonotone(a: int, b: int, n: int)
    requires 0 <= a <= b && n > 0
    ensures 0 <= Quotient(a, n) <= Quotient(b, n)
  {
    Divides(a, b, n);
  }

  lemma Divides(a: int, b: int, n: int)
    requires 0 <= a <= b && n > 0
    ensures 0 <= a / n <= b / n
  {
    if b / n < a / n {
      var q, q' := a / n, b / n;
      assert a >= q * n && b < (q' + 1) * n && q >= q' + 1;
      Scale(q' + 1, q, n);
    }
  }

  lemma Scale(a: int, b: int, n: int)
    requires a <= b && n > 0
    ensures a * n <= b * n
  {
  }

  lemma AtMost(a: int, k: int, n: int)
    requires 0 <= a <= k * n && n > 0
    ensures a / n <= k
  {
    var q := a / n;
    if q > k {
      Scale(k + 1, q, n);
    }
  }

  lemma QuotientFull(a: int, n: int)
    requires 0 <= a <= 100 * n && n > 0
    ensures 0 <= Quotient(a, n) <= 100
  {
    Divides(0, a, n);
    AtMost(a, 100, n);
  }

  lemma FilePercentRange(recv: int, size: int)
    requires 0 <= recv && (size > 0 ==> recv <= size)
    ensures 0 <= FilePercent(recv, size) <= 100
  {
    if size > 0 {
      QuotientFull(recv * 100, size);
    }
  }

  lemma {:induction false} PartialSums(files: seq<IaFileEntry>, n: nat)
    requires Sizes(files) && n <= |files|
    ensures 0 <= SumSizes(files[..n]) <= SumSizes(files)
    decreases |files| - n
  {
    if n == |files| {
      assert files[..n] == files;
      SumsPositive(files);
    } else {
      PartialSums(files, n + 1);
      SumsOneMore(files, n);
      SumsPositive(files[..n]);
    }
  }

  lemma {:induction false} SumsPositive(files: seq<IaFileEntry>)
    requires Sizes(files)
    ensures SumSizes(files) >= 0
  {
    if files != [] {
      SumsPositive(files[..|files| - 1]);
    }
  }

  // The first idx files are done and the reports of the next fit.
  predicate Consistent(ia: IaRun) {
    && Sizes(ia.files) && ia.files != [] && ia.idx < |ia.files|
    && ia.done == SumSizes(ia.files[..ia.idx]) && ia.total == SumSizes(ia.files)
    && ReportsFit(ia)
  }

  lemma PercentRange(ia: IaRun)
    requires Consistent(ia)
    ensures 0 <= Percent(ia) <= 100
  {
    hide SumSizes;
    PartialSums(ia.files, ia.idx);
    PartialSums(ia.files, ia.idx + 1);
    SumsOneMore(ia.files, ia.idx);
    if ia.total > 0 {
      QuotientFull((ia.done + ia.recv) * 100, ia.total);
    } else {
      FilePercentRange(ia.recv, ia.announced);
      QuotientFull(ia.idx * 100 + FilePercent(ia.recv, ia.announced), |ia.files|);
    }
  }

  // A later report of the same download shows no less.
  lemma ReportGrows(ia: IaRun, recv: int, size: int)
    requires Consistent(ia) && ia.recv <= recv
    requires if ia.total > 0 then recv <= ia.files[ia.idx].size
             else (ia.announced > 0 ==> size == ia.announced) && (size > 0 ==> recv <= size)
    ensures var ia' := ia.(recv := recv, announced := size); Consistent(ia') && Percent(ia) <= Percent(ia')
  {
    hide SumSizes;
    PartialSums(ia.files, ia.idx);
    if ia.total > 0 {
      QuotientMonotone((ia.done + ia.recv) * 100, (ia.done + recv) * 100, ia.total);
    } else {
      FilePercentGrows(ia.recv, ia.announced, recv, size);
      QuotientMonotone(ia.idx * 100 + FilePercent(ia.recv, ia.announced), ia.idx * 100 + FilePercent(recv, size),
                       |ia.files|);
    }
  }

  lemma FilePercentGrows(recv: int, size: int, recv': int, size': int)
    requires 0 <= recv <= recv' && (size > 0 ==> recv <= size && size' == size) && (size' > 0 ==> recv' <= size')
    ensures 0 <= FilePercent(recv, size) <= FilePercent(recv', size')
  {
    FilePercentRange(recv, size);
    FilePercentRange(recv', size');
    if size > 0 {
      QuotientMonotone(recv * 100, recv' * 100, size);
    }
  }

  // The next file starts no lower than the last one ended.
  lemma NextFileGrows(ia: IaRun, ia': IaRun)
    requires Consistent(ia) && ia'.files == ia.files && ia'.idx == ia.idx + 1 < |ia.files| && ia'.total == ia.total
    requires ia'.done == ia.done + ia.files[ia.idx].size && ia'.recv == 0 && ia'.announced == 0
    ensures Consistent(ia') && Percent(ia) <= Percent(ia')
  {
    hide SumSizes;
    SumsOneMore(ia.files, ia.idx);
    PartialSums(ia.files, ia.idx);
    if ia.total > 0 {
      QuotientMonotone((ia.done + ia.recv) * 100, ia'.done * 100, ia.total);
    } else {
      FilePercentRange(ia.recv, ia.announced);
      QuotientMonotone(ia.idx * 100 + FilePercent(ia.recv, ia.announced), ia'.idx * 100, |ia.files|);
    }
  }

  // ----- steps -----

  // The row of the run shows no less than before, for as long as the run lasts.
  predicate Climbs(s: Plugin, r: Plugin) {
    var id := s.ia.item;
    id != "" && r.ia.item == id && id in s.rows && id in r.rows && s.rows[id].state == r.rows[id].state == Mirroring ==>
      s.rows[id].progress <= r.rows[id].progress
  }

  // The run goes on or starts, its row is as it was or is no longer mirroring.
  predicate RowKept(s: Plugin, r: Plugin) {
    && r.ia == s.ia && r.catalog == s.catalog
    && (s.ia.item in r.rows && r.rows[s.ia.item].state == Mirroring ==>
          s.ia.item in s.rows && r.rows[s.ia.item] == s.rows[s.ia.item])
  }

  lemma KeptShows(s: Plugin, r: Plugin)
    requires Shown(s) && RowKept(s, r)
    ensures Shown(r) && Climbs(s, r)
  {
    hide Percent, Sizes, ReportsFit, NeverPinned;
    assert NeverPinned(r) == NeverPinned(s) by {
      SameSource(s, r);
    }
  }

  lemma SameSource(s: Plugin, r: Plugin)
    requires r.ia == s.ia && r.catalog == s.catalog
    ensures NeverPinned(r) == NeverPinned(s)
  {
  }

  predicate Over(r: Plugin) {
    r.ia.item == ""
  }

  lemma OverShows(s: Plugin, r: Plugin)
    requires Over(r)
    ensures Shown(r) && Climbs(s, r)
  {
  }

  lemma MirrorShows(s: Plugin, id: string)
    requires Sound(s) && Shown(s)
    ensures Shown(MirrorItem(s, id)) && Climbs(s, MirrorItem(s, id))
  {
    hide Sound, Percent;
    NoEmptyId(s);
    var r := MirrorItem(s, id);
    if MirrorCode(s, id) == Done && FromArchive(SourceOf(s, id).cid) {
      assert r.ia.files == [] && r.ia.total == 0 && r.ia.recv == 0;
      NothingShown(r.ia);
    } else {
      KeptShows(s, r);
    }
  }

  lemma NothingShown(ia: IaRun)
    requires ia.files == [] && ia.total == 0
    ensures Percent(ia) == 0
  {
  }

  lemma DrainShows(s: Plugin)
    requires Sound(s) && Shown(s)
    ensures Shown(DrainAutoQueue(s)) && (s.ia.item != "" ==> DrainAutoQueue(s) == s)
  {
    hide Sound, Shown, MirrorItem;
    if Idle(s) {
      var n := Skipped(s.rows, s.queue);
      NoRunShown(s.(queue := []));
      if n < |s.queue| {
        var s1 := s.(queue := s.queue[n + 1..]);
        QueueOnly(s, s.queue[n + 1..]);
        NoRunShown(s1);
        MirrorShows(s1, s.queue[n]);
      }
    }
  }

  lemma NoRunShown(s: Plugin)
    requires s.ia.item == ""
    ensures Shown(s)
  {
  }

  // A drain over a longer queue or more rows than before.
  lemma DrainAfter(s: Plugin, s1: Plugin)
    requires Sound(s1) && Shown(s) && RowKept(s, s1)
    ensures Shown(DrainAutoQueue(s1)) && Climbs(s, DrainAutoQueue(s1))
  {
    hide Sound, Shown, DrainAutoQueue, RowKept;
    KeptShows(s, s1);
    DrainShows(s1);
    KeptItem(s, s1);
    if s.ia.item == "" {
      NoClimb(s, DrainAutoQueue(s1));
    }
  }

  lemma KeptItem(s: Plugin, s1: Plugin)
    requires RowKept(s, s1)
    ensures s1.ia.item == s.ia.item
  {
  }

  lemma NoClimb(s: Plugin, r: Plugin)
    requires s.ia.item == ""
    ensures Climbs(s, r)
  {
  }

  lemma DrainEventShows(s: Plugin, e: Event)
    requires Sound(s) && Shown(s) && (e.AutoOn? || e.Discover? || e.HealthTick?)
    ensures Shown(Step(s, e)) && Climbs(s, Step(s, e))
  {
    hide Sound, Shown, Climbs, DrainAutoQueue, WithinCap, Wanted, EnqueueAll, Choose;
    match e
    case HealthTick => DrainAfter(s, s);
    case AutoOn(listing) =>
      var queue := EnqueueAll(s.queue, Choose(listing, x => Wanted(s, x)));
      QueueOnly(s, queue);
      DrainAfter(s, s.(queue := queue));
    case Discover(autoOn, ids) =>
      var s1 := WithRows(s, ids);
      NoEmptyId(s);
      RowsOnly(s, s1.rows);
      var queue := if autoOn then EnqueueAll(s1.queue, Choose(ids, x => x in s1.rows && WithinCap(s1, x))) else s1.queue;
      QueueOnly(s1, queue);
      DrainAfter(s, s1.(queue := queue));
  }

  lemma ListShows(s: Plugin, e: Event)
    requires Shown(s) && (e.RemoveRow? || e.RemoveAll? || e.Unfollow? || e.StorageState?)
    ensures Shown(Step(s, e)) && Climbs(s, Step(s, e))
  {
    hide Shown, Climbs;
    KeptShows(s, Step(s, e));
  }

  lemma UnmirrorShows(s: Plugin, id: string)
    requires Shown(s)
    ensures Shown(UnmirrorItem(s, id)) && Climbs(s, UnmirrorItem(s, id))
  {
    hide Shown, Climbs, StartUnpins;
    KeptShows(s, UnmirrorItem(s, id));
  }

  lemma AbortShows(s: Plugin, id: string)
    requires Shown(s)
    ensures Shown(AbortPreserve(s, id)) && Climbs(s, AbortPreserve(s, id))
  {
    hide Shown, Climbs, WithoutId;
    if s.ia.item == id {
      OverShows(s, AbortPreserve(s, id));
    } else {
      KeptShows(s, AbortPreserve(s, id));
    }
  }

  lemma PinShows(s: Plugin, cid: string, ok: bool)
    requires Shown(s)
    ensures Shown(PinFinished(s, cid, ok)) && Climbs(s, PinFinished(s, cid, ok))
  {
    hide Shown, Climbs, CandidatesFor, ReseedRefused, OwnerOf;
    KeptShows(s, PinFinished(s, cid, ok));
  }

  lemma UnpinShows(s: Plugin, cid: string, ok: bool)
    requires Shown(s)
    ensures Shown(UnpinFinished(s, cid, ok)) && Climbs(s, UnpinFinished(s, cid, ok))
  {
    hide Shown, Climbs, FilesLeft, TakeUnpin, OwnerOf;
    KeptShows(s, UnpinFinished(s, cid, ok));
  }

  // ----- replies of the running item -----

  // IaNextFile either ends the run or starts the next download from zero.
  lemma NextShows(s: Plugin)
    requires s.ia.item != "" && NeverPinned(s) && s.ia.files != []
    requires var ia := s.ia.(recv := 0, announced := 0);
             s.ia.idx < |s.ia.files| ==> Consistent(ia) && ShownBelow(s.rows, s.ia.item, Percent(ia))
    ensures var r := IaNextFile(s);
            Shown(r) && (r.ia.item == s.ia.item ==> r.rows == s.rows)
  {
    hide Sizes, SumSizes;
    if s.ia.idx < |s.ia.files| {
      var ia := s.ia.(recv := 0, announced := 0);
      PercentRange(ia);
      assert Percent(ia) == Percent(ia.(tracked := s.nextDownload));
    }
  }

  lemma ManifestShows(s: Plugin, ok: bool, body: seq<Token>)
    requires Shown(s) && s.ia.item != "" && Untouched(s.ia) && Sizes(Parsed(body))
    ensures Shown(ManifestReply(s, ok, body)) && Climbs(s, ManifestReply(s, ok, body))
  {
    hide Parsed, IaNextFile, IaFail, SumSizes;
    var files := Parsed(body);
    if ok && files != [] {
      var ia := s.ia.(files := files, done := 0, total := SumSizes(files));
      EmptySum(files);
      PercentRange(ia);
      assert ia.(recv := 0, announced := 0) == ia;
      NextShows(s.(ia := ia));
    } else {
      Ended(s);
      OverShows(s, IaFail(s));
    }
  }

  lemma EmptySum(files: seq<IaFileEntry>)
    ensures SumSizes(files[..0]) == 0
  {
  }

  lemma Ended(s: Plugin)
    ensures IaFail(s).ia.item == "" && IaPending(s).ia.item == "" && IaFinish(s).ia.item == ""
  {
  }

  lemma FileReplyShows(s: Plugin, entry: IaFileEntry, ok: bool, content: Option<Digests>, accepted: bool)
    requires Shown(s) && s.ia.item != ""
    ensures Shown(FileReply(s, entry, ok, content, accepted)) && Climbs(s, FileReply(s, entry, ok, content, accepted))
  {
    hide Shown, Climbs, IaFail, IaPending, VerifyIaFile;
    var r := FileReply(s, entry, ok, content, accepted);
    var ia := s.ia.(unverified := s.ia.unverified + (if VerifyIaFile(content, entry) == Unverified then 1 else 0),
                    acts := s.ia.acts + [Fetched(entry, content), Sent(entry)]);
    Ended(s);
    Ended(s.(ia := ia));
    if r.ia.item == "" {
      OverShows(s, r);
    } else {
      Recorded(s, s.(ia := ia, uploading := true, cargo := ""));
    }
  }

  lemma Recorded(s: Plugin, r: Plugin)
    requires Shown(s) && r.rows == s.rows && r.catalog == s.catalog
    requires r.ia == s.ia.(unverified := r.ia.unverified, acts := r.ia.acts)
    ensures Shown(r) && Climbs(s, r)
  {
    hide Sizes;
    assert Percent(r.ia) == Percent(s.ia);
  }

  lemma UploadShows(s: Plugin, ok: bool, cid: string)
    requires Sound(s) && Shown(s) && s.uploading && s.ia.item != ""
    ensures var r := UploadFinished(s.(uploading := false), ok, cid); Shown(r) && Climbs(s, r)
  {
    hide AllExact, InOrder, FetchedWell, WithoutChecksum, SumSizes, Sizes, IaPending, IaNextFile;
    var s1 := s.(uploading := false);
    Ended(s1);
    if ok {
      var ia := FileStored(s.ia, cid);
      PercentRange(s.ia);
      if ia.idx < |ia.files| {
        NextFileGrows(s.ia, ia.(recv := 0, announced := 0));
      }
      NextShows(s1.(ia := ia));
    } else {
      OverShows(s, IaPending(s1));
    }
  }

  lemma ProgressShows(s: Plugin, token: nat, recv: int, size: int)
    requires Sound(s) && Shown(s) && Plausible(s, Progress(token, recv, size))
    ensures Shown(DownloadProgress(s, token, recv, size)) && Climbs(s, DownloadProgress(s, token, recv, size))
  {
    hide AllExact, InOrder, FetchedWell, WithoutChecksum, SumSizes, Sizes, Percent, FilePercent;
    if token in s.downloads && s.downloads[token].FileTask? {
      assert s.ia.item != "" && BetweenFiles(s.ia);
      ReportGrows(s.ia, recv, size);
      PercentRange(s.ia.(recv := recv, announced := size));
    } else if s.ia.item == "" {
      CandidateProgress(s, token, recv, size);
    }
  }

  lemma CandidateProgress(s: Plugin, token: nat, recv: int, size: int)
    requires s.ia.item == "" && (token in s.downloads ==> !s.downloads[token].FileTask?)
    ensures Shown(DownloadProgress(s, token, recv, size)) && Climbs(s, DownloadProgress(s, token, recv, size))
  {
    hide FilePercent;
  }

  lemma ReplyShows(s: Plugin, token: nat, ok: bool, body: seq<Token>, content: Option<Digests>, accepted: bool)
    requires Sound(s) && Shown(s) && Sizes(Parsed(body)) && s.ia.item != ""
    ensures var r := DownloadReply(s, token, ok, body, content, accepted); Shown(r) && Climbs(s, r)
  {
    hide AllExact, BetweenFiles, FileSent, Sizes, Parsed, Percent, ManifestReply, FileReply, ReportsFit;
    if token in s.downloads {
      var s1 := s.(downloads := s.downloads - {token});
      KeptShows(s, s1);
      if s.downloads[token].ManifestTask? {
        ManifestShows(s1, ok, body);
      } else {
        FileReplyShows(s1, s.downloads[token].entry, ok, content, accepted);
      }
    }
  }

  // ----- every step and every run -----

  lemma IdleReplyShows(s: Plugin, e: Event)
    requires Sound(s) && s.ia.item == "" && (e.Reply? || e.UploadDone?)
    ensures Shown(Step(s, e)) && Climbs(s, Step(s, e))
  {
    hide Sound, DownloadReply, UploadFinished;
    var r := Step(s, e);
    if e.Reply? {
      IdleReply(s, e.token, e.ok, e.body, e.content, e.accepted);
    } else {
      IdleUpload(s.(uploading := false), e.ok, e.cid);
    }
    OverShows(s, r);
  }

  lemma IdleUpload(s: Plugin, ok: bool, cid: string)
    requires s.ia.item == ""
    ensures UploadFinished(s, ok, cid).ia.item == ""
  {
  }

  lemma IdleReply(s: Plugin, token: nat, ok: bool, body: seq<Token>, content: Option<Digests>, accepted: bool)
    requires s.ia.item == ""
    ensures DownloadReply(s, token, ok, body, content, accepted).ia.item == ""
  {
    hide Parsed, VerifyIaFile;
  }

  // One step of a machine in step, with plausible reports, keeps the shown progress within 0..100 and never
  // moves it back while the run lasts.
  lemma StepShows(s: Plugin, e: Event)
    requires Sound(s) && Shown(s) && Plausible(s, e)
    ensures Shown(Step(s, e)) && Climbs(s, Step(s, e))
  {
    hide Sound, Shown, Climbs, DownloadReply, UploadFinished, UnmirrorItem, UnpinFinished, PinFinished, MirrorItem,
      AutoPreserveOn, Discovered, DrainAutoQueue, AbortPreserve, DownloadProgress;
    if s.ia.item == "" && (e.Reply? || e.UploadDone?) {
      IdleReplyShows(s, e);
    } else {
      match e
      case Mirror(id) => MirrorShows(s, id);
      case Unmirror(id) => UnmirrorShows(s, id);
      case Abort(id) => AbortShows(s, id);
      case Reply(token, ok, body, content, accepted) => ReplyShows(s, token, ok, body, content, accepted);
      case Progress(token, recv, size) => ProgressShows(s, token, recv, size);
      case UploadDone(ok, cid) =>
        if s.uploading {
          UploadShows(s, ok, cid);
        } else {
          KeptShows(s, s);
        }
      case PinDone(cid, ok) => PinShows(s, cid, ok);
      case UnpinDone(cid, ok) => UnpinShows(s, cid, ok);
      case Restart(loaded) => OverShows(s, RestartWith(s, loaded));
      case AutoOn(_) => DrainEventShows(s, e);
      case Discover(_, _) => DrainEventShows(s, e);
      case HealthTick => DrainEventShows(s, e);
      case _ => ListShows(s, e);
    }
  }

  predicate ClimbsAt(s: Plugin, events: seq<Event>, i: nat)
    requires i < |events|
  {
    Climbs(RunFrom(s, events[..i]), RunFrom(s, events[..i + 1]))
  }

  // Over every allowed run with plausible reports the progress of a running preserve is a percentage, and no
  // step of it moves the bar back.
  lemma {:induction false} ProgressOnlyClimbs(s: Plugin, events: seq<Event>)
    requires Sound(s) && Shown(s) && EachStep(s, events, Allowed) && EachStep(s, events, Plausible)
    ensures var r := RunFrom(s, events);
            && Sound(r) && Shown(r)
            && (r.ia.item != "" && r.ia.item in r.rows && r.rows[r.ia.item].state == Mirroring ==>
                  0 <= r.rows[r.ia.item].progress <= 100)
    ensures forall i | 0 <= i < |events| :: ClimbsAt(s, events, i)
  {
    hide Sound, Shown, Allowed, Plausible, Climbs, Step, EachStep;
    if events != [] {
      var before, e := events[..|events| - 1], events[|events| - 1];
      EachStepPrefix(s, events, Allowed);
      EachStepPrefix(s, events, Plausible);
      ProgressOnlyClimbs(s, before);
      StepSound(RunFrom(s, before), e);
      StepShows(RunFrom(s, before), e);
      forall i | 0 <= i < |events| ensures ClimbsAt(s, events, i) {
        if i < |before| {
          assert ClimbsAt(s, before, i);
          assert before[..i] == events[..i] && before[..i + 1] == events[..i + 1];
        } else {
          assert events[..i] == before && events[..i + 1] == events;
        }
      }
    }
    WithinRange(RunFrom(s, events));
  }

  lemma WithinRange(r: Plugin)
    requires Shown(r)
    ensures r.ia.item != "" && r.ia.item in r.rows && r.rows[r.ia.item].state == Mirroring ==>
              0 <= r.rows[r.ia.item].progress <= 100
  {
    hide Percent, Sizes, ReportsFit, NeverPinned;
  }

  // ----- what a report shows -----

  // `p` is the whole percentage that `part` is of `whole`.
  predicate WholePercent(p: int, part: int, whole: int) {
    p * whole <= 100 * part < (p + 1) * whole
  }

  lemma QuotientFloors(part: int, whole: int)
    requires part >= 0 && whole > 0
    ensures WholePercent(Quotient(part * 100, whole), part, whole)
  {
  }

  // A report on a file shows the percentage of bytes that have arrived, of all files when the manifest gives sizes.
  // Without sizes each file counts alike, the current one by its own percentage.
  lemma ReportsShowTheBytes(s: Plugin, token: nat, recv: int, size: int) returns (ofFile: int)
    requires token in s.downloads && s.downloads[token].FileTask? && s.downloads[token].item == s.ia.item
    requires s.ia.item in s.rows
    requires BetweenFiles(s.ia) && Sizes(s.ia.files) && recv >= 0
    ensures var r, files := Step(s, Progress(token, recv, size)), s.ia.files;
            && s.ia.item in r.rows && r.rows[s.ia.item].state == Mirroring
            && (if SumSizes(files) > 0
                then WholePercent(r.rows[s.ia.item].progress, SumSizes(files[..s.ia.idx]) + recv, SumSizes(files))
                else r.rows[s.ia.item].progress == (s.ia.idx * 100 + ofFile) / |files|)
    ensures if size > 0 then WholePercent(ofFile, recv, size) else ofFile == 0
  {
    hide SumSizes, InOrder, WithoutChecksum, WholePercent;
    PartialSums(s.ia.files, s.ia.idx);
    var r, ia := Step(s, Progress(token, recv, size)), s.ia.(recv := recv, announced := size);
    assert r.rows == SetMirroring(s.rows, s.ia.item, Percent(ia));
    ofFile := FilePercent(recv, size);
    if size > 0 {
      QuotientFloors(recv, size);
      Divides(0, recv * 100, size);
    }
    if ia.total > 0 {
      QuotientFloors(ia.done + recv, ia.total);
      Divides(0, (ia.done + recv) * 100, ia.total);
    } else {
      Divides(0, ia.idx * 100 + FilePercent(recv, size), |ia.files|);
    }
  }

  // A report on a manifest, on a file of an item that is no longer the running one or has no manifest yet, or on a
  // download that is over changes nothing.
  lemma LateReportsShowNothing(s: Plugin, token: nat, recv: int, size: int)
    requires token in s.downloads && !s.downloads[token].ManifestTask? ==>
               s.downloads[token].FileTask? && (s.downloads[token].item != s.ia.item || s.ia.files == [])
    ensures Step(s, Progress(token, recv, size)) == s
  {
  }

  // A report on a re-seed's download shows the percentage of that file.
  lemma ReseedShowsTheBytes(s: Plugin, token: nat, recv: int, size: int)
    requires token in s.downloads && s.downloads[token].CandidateTask? && s.downloads[token].item in s.rows
    requires recv >= 0 && size > 0
    ensures var id, r := s.downloads[token].item, Step(s, Progress(token, recv, size));
            && id in r.rows && r.rows[id].state == Mirroring && WholePercent(r.rows[id].progress, recv, size)
  {
    hide WholePercent;
    QuotientFloors(recv, size);
    Divides(0, recv * 100, size);
  }
}
