/** An item preserve that nothing goes wrong with: however many files the manifest lists, it ends "mirrored"
    with one upload per file, the returned CIDs in manifest order. The files are served from any point of a
    run on, whatever else is outstanding beside it. */
module PreserveServed {
  import opened Basics
  import opened Inscriptions
  import opened IaFiles
  import opened PreserveSteps
  import opened PreserveRuns
  import Storage = StorageClients

  // ----- one file -----

  // The run waits for the download of its current file.
  predicate Fetching(s: Plugin) {
    && s.ia.item != "" && s.ia.idx < |s.ia.files| && !s.uploading
    && s.nextDownload == s.ia.tracked + 1
    && s.ia.tracked in s.downloads
    && s.downloads[s.ia.tracked] == FileTask(s.ia.iaId, s.ia.files[s.ia.idx], s.ia.item)
  }

  // The download arrives and storage keeps it.
  function ServeFile(token: nat, content: Option<Digests>, cid: string): seq<Event> {
    [Reply(token, true, [], content, true), UploadDone(true, cid)]
  }

  // What is left of the run, and of the machine around it, after one more file.
  predicate OneFileOn(s: Plugin, r: Plugin, cid: string) {
    && r.ia.item == s.ia.item && r.ia.iaId == s.ia.iaId && r.ia.files == s.ia.files && r.ia.idx == s.ia.idx + 1
    && r.ia.stored == s.ia.stored + [cid] && |r.ia.acts| == |s.ia.acts| + 3
    && r.ia.tracked == s.ia.tracked + 1
    && r.rows == s.rows && r.catalog == s.catalog && r.completed == s.completed && r.reseed == s.reseed
  }

  // The run has ended in "mirrored" with these CIDs.
  predicate EndedWith(s: Plugin, r: Plugin, stored: seq<string>, acts: nat) {
    && r.ia.item == "" && r.reseed == s.reseed && r.catalog == s.catalog
    && |r.completed| == |s.completed| + 1 && r.completed[..|s.completed|] == s.completed
    && r.completed[|s.completed|].item == s.ia.item && r.completed[|s.completed|].files == s.ia.files
    && r.completed[|s.completed|].stored == stored && |r.completed[|s.completed|].acts| == acts
    && (s.ia.item in s.rows ==> s.ia.item in r.rows && r.rows[s.ia.item] == Row(Mirrored, 0, stored))
  }

  lemma ServedDownload(s: Plugin, content: Option<Digests>)
    requires Fetching(s) && Passing(content, s.ia.files[s.ia.idx])
    ensures var r := Step(s, Reply(s.ia.tracked, true, [], content, true));
            && r.uploading && r.nextDownload == s.nextDownload
            && r.ia == s.ia.(unverified := r.ia.unverified, acts := r.ia.acts) && |r.ia.acts| == |s.ia.acts| + 2
            && r.rows == s.rows && r.catalog == s.catalog && r.completed == s.completed && r.reseed == s.reseed
            && r.pins == s.pins && r.settled == s.settled
  {
    hide VerifyIaFile;
  }

  lemma ServedUpload(s: Plugin, cid: string)
    requires s.uploading && s.ia.item != "" && s.ia.idx < |s.ia.files| && cid != ""
    requires s.nextDownload == s.ia.tracked + 1
    ensures var r := Step(s, UploadDone(true, cid));
            if s.ia.idx + 1 == |s.ia.files| then EndedWith(s, r, s.ia.stored + [cid], |s.ia.acts| + 1)
            else
              && Fetching(r) && r.ia.item == s.ia.item && r.ia.iaId == s.ia.iaId && r.ia.files == s.ia.files
              && r.ia.idx == s.ia.idx + 1 && r.ia.stored == s.ia.stored + [cid] && |r.ia.acts| == |s.ia.acts| + 1
              && r.ia.tracked == s.ia.tracked + 1
              && r.rows == s.rows && r.catalog == s.catalog && r.completed == s.completed && r.reseed == s.reseed
  {
  }

  // One file served takes the run to its next file, or to its end.
  lemma FileServed(s: Plugin, content: Option<Digests>, cid: string)
    requires Fetching(s) && Passing(content, s.ia.files[s.ia.idx]) && cid != ""
    ensures var r := RunFrom(s, ServeFile(s.ia.tracked, content, cid));
            if s.ia.idx + 1 == |s.ia.files| then EndedWith(s, r, s.ia.stored + [cid], |s.ia.acts| + 3)
            else Fetching(r) && OneFileOn(s, r, cid)
    ensures EachStep(s, ServeFile(s.ia.tracked, content, cid), Allowed)
  {
    hide Fetching, Step, RunFrom, EachStep, VerifyIaFile;
    var e := Reply(s.ia.tracked, true, [], content, true);
    FetchingFacts(s);
    TwoSteps(s, e, UploadDone(true, cid));
    ServedDownload(s, content);
    ServedUpload(Step(s, e), cid);
  }

  lemma FetchingFacts(s: Plugin)
    requires Fetching(s)
    ensures s.ia.item != "" && s.ia.idx < |s.ia.files| && s.nextDownload == s.ia.tracked + 1
  {
  }

  // ----- the rest of the run -----

  function ServeFiles(token: nat, contents: seq<Option<Digests>>, cids: seq<string>): seq<Event>
    requires |contents| == |cids|
  {
    if cids == [] then []
    else
      var n := |cids| - 1;
      ServeFiles(token, contents[..n], cids[..n]) + ServeFile(token + n, contents[n], cids[n])
  }

  // The contents pass the check and storage names every file, from file `idx` on.
  predicate Servable(ia: IaRun, contents: seq<Option<Digests>>, cids: seq<string>) {
    && |contents| == |cids| <= |ia.files| - ia.idx
    && (forall i | 0 <= i < |cids| :: cids[i] != "" && Passing(contents[i], ia.files[ia.idx + i]))
  }

  // The run after the first |cids| of its remaining files, some being left.
  predicate FilesOn(s: Plugin, r: Plugin, cids: seq<string>) {
    && r.ia.item == s.ia.item && r.ia.iaId == s.ia.iaId && r.ia.files == s.ia.files && r.ia.idx == s.ia.idx + |cids|
    && r.ia.stored == s.ia.stored + cids && |r.ia.acts| == |s.ia.acts| + 3 * |cids|
    && r.ia.tracked == s.ia.tracked + |cids|
    && r.rows == s.rows && r.catalog == s.catalog && r.completed == s.completed && r.reseed == s.reseed
  }

  lemma ServableFront(ia: IaRun, contents: seq<Option<Digests>>, cids: seq<string>)
    requires Servable(ia, contents, cids) && cids != []
    ensures var n := |cids| - 1;
            && |contents| == |cids| && Servable(ia, contents[..n], cids[..n])
            && cids[n] != "" && ia.idx + n < |ia.files| && Passing(contents[n], ia.files[ia.idx + n])
  {
    hide VerifyIaFile;
  }

  // Serving files one after another: the run moves on file by file, nothing is mirrored before the last
  // upload, and with the last one the item is.
  lemma {:induction false} FilesServed(s: Plugin, contents: seq<Option<Digests>>, cids: seq<string>)
    requires Fetching(s) && Servable(s.ia, contents, cids)
    ensures var r := RunFrom(s, ServeFiles(s.ia.tracked, contents, cids));
            if |cids| == |s.ia.files| - s.ia.idx
            then EndedWith(s, r, s.ia.stored + cids, |s.ia.acts| + 3 * |cids|)
            else Fetching(r) && FilesOn(s, r, cids)
    ensures EachStep(s, ServeFiles(s.ia.tracked, contents, cids), Allowed)
    decreases |cids|
  {
    hide Fetching, Servable, RunFrom, EachStep, VerifyIaFile, Step, EndedWith;
    FetchingFacts(s);
    if cids == [] {
      assert s.ia.stored + [] == s.ia.stored;
      NothingServed(s);
    } else {
      var n := |cids| - 1;
      ServableFront(s.ia, contents, cids);
      var front, token := ServeFiles(s.ia.tracked, contents[..n], cids[..n]), s.ia.tracked + n;
      FilesServed(s, contents[..n], cids[..n]);
      var r := RunFrom(s, front);
      FileServed(r, contents[n], cids[n]);
      RunsJoin(s, front, ServeFile(token, contents[n], cids[n]));
      EachJoins(s, front, ServeFile(token, contents[n], cids[n]), Allowed);
      assert s.ia.stored + cids[..n] + [cids[n]] == s.ia.stored + cids;
      EndsLikewise(s, r, RunFrom(r, ServeFile(token, contents[n], cids[n])), s.ia.stored + cids,
                   |s.ia.acts| + 3 * |cids|);
    }
  }

  lemma NothingServed(s: Plugin)
    ensures RunFrom(s, []) == s && EachStep(s, [], Allowed)
  {
  }

  lemma EndsLikewise(s: Plugin, m: Plugin, r: Plugin, stored: seq<string>, acts: nat)
    requires m.ia.item == s.ia.item && m.ia.files == s.ia.files && m.rows == s.rows && m.catalog == s.catalog
    requires m.completed == s.completed && m.reseed == s.reseed
    ensures EndedWith(m, r, stored, acts) == EndedWith(s, r, stored, acts)
  {
  }

  // ----- contents that pass -----

  // A download whose digests are the listed ones.
  function Matching(entry: IaFileEntry): Option<Digests> {
    Some(Digests(entry.md5, entry.sha1))
  }

  lemma MatchingPasses(entry: IaFileEntry)
    ensures Passing(Matching(entry), entry)
  {
  }

  // ----- a whole preserve -----

  // The manifest arrives.
  lemma ManifestServed(s: Plugin, body: seq<Token>)
    requires s.ia.item != "" && s.ia.tracked in s.downloads && s.downloads[s.ia.tracked].ManifestTask?
    requires !s.uploading && Untouched(s.ia) && Parsed(body) != [] && s.nextDownload == s.ia.tracked + 1
    ensures var r := Step(s, Reply(s.ia.tracked, true, body, None, true));
            && Fetching(r) && r.ia.item == s.ia.item && r.ia.files == Parsed(body)
            && r.ia.idx == 0 && r.ia.stored == [] && r.ia.acts == [] && r.ia.tracked == s.ia.tracked + 1
            && r.rows == s.rows && r.catalog == s.catalog && r.completed == s.completed && r.reseed == s.reseed
            && r.pins == s.pins && r.settled == s.settled
  {
    hide Parsed, SumSizes;
  }

  lemma StartServed(s: Plugin, id: string)
    requires Idle(s) && !s.uploading && id in s.rows && Retryable(s.catalog, id) && id != ""
    ensures var r := Step(s, Mirror(id));
            && r.ia.item == id && r.ia.tracked == s.nextDownload && r.nextDownload == s.nextDownload + 1
            && r.ia.tracked in r.downloads && r.downloads[r.ia.tracked].ManifestTask?
            && !r.uploading && Untouched(r.ia) && id in r.rows && r.rows[id].state == Mirroring
            && r.completed == s.completed && r.reseed == s.reseed
            && r.pins == s.pins && r.rows.Keys == s.rows.Keys && r.catalog == s.catalog && r.settled == s.settled
  {
  }

  // A preserve of an archive item from its start: the manifest, then its files.
  function ServeItem(s: Plugin, id: string, body: seq<Token>, contents: seq<Option<Digests>>, cids: seq<string>): seq<Event>
    requires |contents| == |cids|
  {
    [Mirror(id), Reply(s.nextDownload, true, body, None, true)] + ServeFiles(s.nextDownload + 1, contents, cids)
  }

  // With storage ready and nothing else running, an item whose n files all arrive, pass and are stored ends
  // "mirrored" with the n upload, holding the n CIDs in manifest order, and before the last it is not.
  lemma ServedItemIsMirrored(s: Plugin, id: string, body: seq<Token>, contents: seq<Option<Digests>>, cids: seq<string>)
    requires Idle(s) && !s.uploading && id in s.rows && Retryable(s.catalog, id) && id != ""
    requires Parsed(body) != [] && |contents| == |cids| <= |Parsed(body)|
    requires forall i | 0 <= i < |cids| :: cids[i] != "" && Passing(contents[i], Parsed(body)[i])
    ensures var r := RunFrom(s, ServeItem(s, id, body, contents, cids));
            if |cids| == |Parsed(body)| then
              && r.ia.item == "" && id in r.rows && r.rows[id] == Row(Mirrored, 0, cids)
              && |r.completed| == |s.completed| + 1
              && r.completed[|s.completed|].files == Parsed(body) && r.completed[|s.completed|].stored == cids
            else
              r.ia.item == id && id in r.rows && r.rows[id].state == Mirroring && r.completed == s.completed
    ensures EachStep(s, ServeItem(s, id, body, contents, cids), Allowed)
  {
    hide Idle, Retryable, Fetching, Untouched, RunFrom, EachStep, VerifyIaFile, Step, Parsed, ServeFiles;
    var start := [Mirror(id), Reply(s.nextDownload, true, body, None, true)];
    var rest := ServeFiles(s.nextDownload + 1, contents, cids);
    StartServed(s, id);
    var s1 := Step(s, Mirror(id));
    ManifestServed(s1, body);
    var s2 := Step(s1, Reply(s.nextDownload, true, body, None, true));
    TwoSteps(s, start[0], start[1]);
    FilesServed(s2, contents, cids);
    assert [] + cids == cids;
    RunsJoin(s, start, rest);
    EachJoins(s, start, rest, Allowed);
  }
}
