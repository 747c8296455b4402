/** What the state file holds, over whole runs (src/lez_client.cpp, the calls of saveState): a record for each
    followed channel and no other, and whatever a scan has reached by the time it ends. Only the pages of a scan
    still under way are not yet on disk. */
module ScanSaved {
  import opened Basics
  import opened Inscriptions
  import opened Channels
  import opened Persistence
  import Scan = ScanSteps
  import opened ScanSteps
  import opened ScanRuns
  import opened ScanTheorems

  // Two records of a channel that say the same of what was covered, found and set.
  predicate SameStanding(a: Channel, b: Channel) {
    && a.channelId == b.channelId && a.name == b.name && a.autoPreserve == b.autoPreserve
    && a.startSlot == b.startSlot && a.cursor == b.cursor && a.synced == b.synced
    && a.lastInscription == b.lastInscription && a.curator == b.curator
    && Essences(a.items) == Essences(b.items)
  }

  // The state file has the channel's record, and loading it gives what memory holds.
  predicate OnDisk(c: Client, k: string) {
    && k in c.channels && c.disk.Some? && k in c.disk.value
    && SameStanding(LoadChannel(c.disk.value[k]), c.channels[k])
  }

  // A page of the channel is being fetched.
  ghost predicate MidPages(c: Client, k: string) {
    OneReply(c, k) && TheReply(c, k).request.Page?
  }

  // The record on disk is no further than memory.
  predicate NoFurther(c: Client, k: string) {
    && k in c.channels && c.disk.Some? && k in c.disk.value
    && LoadChannel(c.disk.value[k]).startSlot == c.channels[k].startSlot
    && LoadChannel(c.disk.value[k]).cursor <= c.channels[k].cursor
  }

  // The file holds the followed channels and no other, each as memory has it unless its pages are under way.
  ghost predicate Saved(c: Client) {
    && (if c.disk.Some? then c.disk.value.Keys == c.channels.Keys else c.channels == map[])
    && forall k | k in c.channels :: NoFurther(c, k) && (OnDisk(c, k) || MidPages(c, k))
  }

  // ----- steps that save -----

  lemma LoadedStanding(chain: seq<Block>, ch: Channel)
    requires Agrees(chain, ch)
    ensures SameStanding(LoadChannel(SaveChannel(ch)), ch)
  {
    ItemsOfChannel(chain, ch);
    EssencesSurvive(ch);
    ChannelRoundTrip(ch);
  }

  lemma JustSaved(chain: seq<Block>, c: Client)
    requires ChannelsAgree(chain, c) && c.disk == Some(SaveAll(c.channels))
    ensures Saved(c)
  {
    hide Agrees, CountsAgree, Essences;
    forall k | k in c.channels ensures OnDisk(c, k) {
      LoadedStanding(chain, c.channels[k]);
    }
  }

  // ----- steps that do not -----

  // Nothing changed for the channel that the file should know, and if its pages were under way they still are.
  ghost predicate Unmoved(c: Client, c': Client, k: string) {
    && k in c.channels && k in c'.channels && SameStanding(c.channels[k], c'.channels[k]) && (MidPages(c, k) ==> MidPages(c', k))
  }

  lemma StillSaved(c: Client, c': Client)
    requires Saved(c) && c'.disk == c.disk && c'.channels.Keys == c.channels.Keys
    requires forall k | k in c.channels ::
               || Unmoved(c, c', k)
               || (OnDisk(c, k) && SameStanding(c.channels[k], c'.channels[k]))
               || (MidPages(c', k) && c'.channels[k].startSlot == c.channels[k].startSlot &&
                   c.channels[k].cursor <= c'.channels[k].cursor)
    ensures Saved(c')
  {
    hide MidPages, Essences;
    forall k | k in c'.channels ensures NoFurther(c', k) && (OnDisk(c', k) || MidPages(c', k)) {
      assert NoFurther(c, k);
    }
  }

  lemma ReplyStays(c: Client, c': Client, k: string)
    requires MidPages(c, k) && k in c'.channels && k in c'.scanning && c'.scanning[k] == c.scanning[k]
    requires c'.scanning[k] in c'.contexts && c'.contexts[c'.scanning[k]] == c.contexts[c.scanning[k]]
    ensures MidPages(c', k)
  {
  }

  lemma StartScanUnmoved(c: Client, id: string, k: string)
    requires Owned(c) && id in c.channels && id !in c.scanning && k in c.channels
    ensures Unmoved(c, StartScan(c, id), k)
  {
    hide Essences, SameStanding;
    var c' := StartScan(c, id);
    SameRecord(c.channels[id]);
    SameRecord(c.channels[k]);
    if MidPages(c, k) {
      assert OwnedContext(c, c.scanning[k]);
      ReplyStays(c, c', k);
    }
  }

  lemma SameRecord(ch: Channel)
    ensures SameStanding(ch, ch) && SameStanding(ch, ch.(lastScan := NO_STATS))
  {
  }

  lemma StartScanSaved(c: Client, id: string)
    requires Owned(c) && Saved(c) && id in c.channels
    ensures Saved(StartScan(c, id))
  {
    if id !in c.scanning {
      var c' := StartScan(c, id);
      assert c'.disk == c.disk && c'.channels.Keys == c.channels.Keys;
      hide StartScan, Unmoved, MidPages, SameStanding, Owned;
      forall k | k in c.channels ensures Unmoved(c, c', k) {
        StartScanUnmoved(c, id, k);
      }
      StillSaved(c, c');
    }
  }

  lemma MarkStands(ch: Channel, i: nat, m: Mark)
    requires i < |ch.items|
    ensures SameStanding(ch, ch.(items := ch.items[i := Marked(ch.items[i], m)]))
  {
    assert Essence(Marked(ch.items[i], m)) == Essence(ch.items[i]);
    assert Essences(ch.items[i := Marked(ch.items[i], m)]) == Essences(ch.items);
  }

  lemma MarkSaved(c: Client, id: string, i: nat, m: Mark)
    requires Saved(c)
    ensures Saved(Scan.MarkItem(c, id, i, m, false))
  {
    hide SameStanding, Marked, Saved;
    if id in c.channels && i < |c.channels[id].items| {
      var c' := Scan.MarkItem(c, id, i, m, false);
      MarkStands(c.channels[id], i, m);
      forall k | k in c.channels ensures Unmoved(c, c', k) {
        SameRecord(c.channels[k]);
        if MidPages(c, k) {
          ReplyStays(c, c', k);
        }
      }
      hide MidPages, Unmoved;
      StillSaved(c, c');
    }
  }

  lemma ReapUnmoved(c: Client, ctx: nat, k: string)
    requires Owned(c) && k in c.channels
    ensures Unmoved(c, Scan.Reap(c, ctx), k)
  {
    hide SameStanding;
    SameRecord(c.channels[k]);
    if MidPages(c, k) {
      assert ctx in c.scanning.Values || c.scanning[k] != ctx;
      ReplyStays(c, Scan.Reap(c, ctx), k);
    }
  }

  lemma ReapSaved(c: Client, ctx: nat)
    requires Owned(c) && Saved(c)
    ensures Saved(Scan.Reap(c, ctx))
  {
    var c' := Scan.Reap(c, ctx);
    hide Unmoved, MidPages, SameStanding, Owned, Saved;
    forall k | k in c.channels ensures Unmoved(c, c', k) {
      ReapUnmoved(c, ctx, k);
    }
    StillSaved(c, c');
  }

  lemma HealthSaved(c: Client, online: Option<bool>)
    requires Saved(c)
    ensures Saved(OnHealth(c, online))
  {
    hide Essences;
    var c' := OnHealth(c, online);
    forall k | k in c.channels ensures Unmoved(c, c', k) {
      if MidPages(c, k) {
        ReplyStays(c, c', k);
      }
    }
    StillSaved(c, c');
  }

  lemma RestartSaved(c: Client)
    requires WellFormed(c) && Saved(c)
    ensures Saved(Scan.Restart(c))
  {
  }

  // ----- replies -----

  // After a reply to channel `id` was handled, what the file holds of the others is as it was.
  predicate OthersStand(c: Client, c': Client, id: string) {
    && c'.channels.Keys == c.channels.Keys && c'.scanning.Keys <= c.scanning.Keys
    && (forall k | k in c.channels && k != id :: c'.channels[k] == c.channels[k])
    && (forall k | k in c.scanning && k != id :: k in c'.scanning && c'.scanning[k] == c.scanning[k])
    && (id in c'.scanning ==> id in c.scanning && c'.scanning[id] == c.scanning[id])
    && (id in c.scanning ==>
          forall x | x in c.contexts && x != c.scanning[id] :: x in c'.contexts && c'.contexts[x] == c.contexts[x])
  }

  lemma OtherUnmoved(c: Client, c': Client, id: string, k: string)
    requires Owned(c) && id in c.scanning && OthersStand(c, c', id) && k in c.channels && k != id
    ensures Unmoved(c, c', k)
  {
    hide Essences;
    if MidPages(c, k) {
      assert OneReply(c, id) && OneReply(c, k) && c.scanning[k] != c.scanning[id];
      ReplyStays(c, c', k);
    }
  }

  lemma ReplySaved(c: Client, c': Client, id: string)
    requires Owned(c) && Saved(c) && id in c.scanning && OthersStand(c, c', id) && c'.disk == c.disk
    requires || (!MidPages(c, id) && SameStanding(c.channels[id], c'.channels[id]))
             || (MidPages(c', id) && c'.channels[id].startSlot == c.channels[id].startSlot &&
                 c.channels[id].cursor <= c'.channels[id].cursor)
    ensures Saved(c')
  {
    hide Essences, OthersStand;
    assert c'.channels.Keys == c.channels.Keys by { KeysStand(c, c', id); }
    forall k | k in c.channels && k != id ensures Unmoved(c, c', k) {
      OtherUnmoved(c, c', id, k);
    }
    assert id in c.channels && (OnDisk(c, id) || MidPages(c, id));
    StillSaved(c, c');
  }

  lemma KeysStand(c: Client, c': Client, id: string)
    requires OthersStand(c, c', id)
    ensures c'.channels.Keys == c.channels.Keys
  {
  }

  // The next page is asked for, or the scan ends and is saved.
  lemma NextPageSaves(c: Client, ctx: nat, id: string, gateway: nat, lib: int, pagesLeft: int)
    requires Serving(c, id, ctx)
    ensures var r := NextPage(c, ctx, id, gateway, lib, pagesLeft);
            || r.disk == Some(SaveAll(r.channels))
            || (r.disk == c.disk && MidPages(r, id) && OthersStand(c, r, id) &&
                r.channels[id] == c.channels[id].(lastLibSlot := lib))
  {
  }

  lemma ArriveStands(c: Client, ctx: nat)
    requires Owned(c) && ctx in c.contexts && c.contexts[ctx] != []
    ensures var id, c' := c.contexts[ctx][0].channelId, Arrive(c, ctx);
            && id in c.scanning && c.scanning[id] == ctx && id in c.channels && OneReply(c, id)
            && TheReply(c, id) == c.contexts[ctx][0]
            && Serving(c', id, ctx) && OthersStand(c, c', id) && c'.channels == c.channels && c'.disk == c.disk
  {
    ArriveServing(c, ctx);
    assert OwnedContext(c, ctx);
    assert OneReply(c, c.contexts[ctx][0].channelId);
  }

  lemma StandChain(c: Client, c1: Client, c2: Client, id: string)
    requires OthersStand(c, c1, id) && OthersStand(c1, c2, id) && id in c1.scanning
    ensures OthersStand(c, c2, id)
  {
  }

  lemma InfoSaves(chain: seq<Block>, c: Client, ctx: nat, lib: Option<int>)
    requires Owned(c) && Saved(c) && ctx in c.contexts && c.contexts[ctx] != [] && c.contexts[ctx][0].request.Info?
    requires ChannelsAgree(chain, OnInfo(Arrive(c, ctx), ctx, c.contexts[ctx][0], lib))
    ensures Saved(OnInfo(Arrive(c, ctx), ctx, c.contexts[ctx][0], lib))
  {
    hide Agrees, CountsAgree, Essences, NextPage, Serving, Owned, Saved, MidPages;
    ArriveStands(c, ctx);
    var r, c1 := c.contexts[ctx][0], Arrive(c, ctx);
    var id, c' := r.channelId, OnInfo(c1, ctx, r, lib);
    NotMidPages(c, id);
    if lib.None? || lib.value <= 0 {
      assert OthersStand(c1, c', id) && c'.disk == c.disk && c'.channels == c.channels;
      StandChain(c, c1, c', id);
      ReplySaved(c, c', id);
    } else {
      NextPageSaves(c1, ctx, id, r.gateway, lib.value, MAX_PAGES);
      if c'.disk == Some(SaveAll(c'.channels)) {
        JustSaved(chain, c');
      } else {
        StandChain(c, c1, c', id);
        ReplySaved(c, c', id);
      }
    }
  }

  lemma NotMidPages(c: Client, id: string)
    requires OneReply(c, id) && !TheReply(c, id).request.Page?
    ensures !MidPages(c, id)
  {
  }

  lemma PageSaves(chain: seq<Block>, c: Client, ctx: nat, body: PageBody)
    requires Owned(c) && Saved(c) && ctx in c.contexts && c.contexts[ctx] != [] && c.contexts[ctx][0].request.Page?
    requires c.channels[c.contexts[ctx][0].channelId].cursor <= c.contexts[ctx][0].request.to
    requires ChannelsAgree(chain, OnPage(Arrive(c, ctx), ctx, c.contexts[ctx][0], body))
    ensures Saved(OnPage(Arrive(c, ctx), ctx, c.contexts[ctx][0], body))
  {
    hide Agrees, CountsAgree, Essences, NextPage, Serving, Owned, Saved, MidPages, WithPage;
    ArriveStands(c, ctx);
    var r, c1 := c.contexts[ctx][0], Arrive(c, ctx);
    var id, c' := r.channelId, OnPage(c1, ctx, r, body);
    if body.Body? {
      var c2 := WithPage(c1, r, body.blocks);
      WithPageServing(c1, ctx, r, body.blocks);
      PageStands(c1, r, body.blocks, ctx);
      NextPageSaves(c2, ctx, id, r.gateway, r.request.lib, r.request.pagesLeft - 1);
      if c'.disk == Some(SaveAll(c'.channels)) {
        JustSaved(chain, c');
      } else {
        StandChain(c, c1, c2, id);
        StandChain(c, c2, c', id);
        ReplySaved(c, c', id);
      }
    } else {
      JustSaved(chain, c');
    }
  }

  lemma PageStands(c: Client, r: Reply, blocks: seq<Block>, ctx: nat)
    requires Serving(c, r.channelId, ctx) && r.request.Page?
    ensures var c' := WithPage(c, r, blocks);
            && OthersStand(c, c', r.channelId) && c'.disk == c.disk && c'.scanning == c.scanning
            && c'.channels[r.channelId].startSlot == c.channels[r.channelId].startSlot
            && c'.channels[r.channelId].cursor == r.request.to
  {
    hide Merge, Added, MaxSlot, LastCurator, Found, PageStats;
  }

  lemma DeliverSaved(chain: seq<Block>, c: Client, libs: seq<int>, ctx: nat, a: Answer)
    requires Good(chain, c, libs) && Saved(c)
    requires Good(chain, Deliver(c, ctx, a), libs)
    ensures Saved(Deliver(c, ctx, a))
  {
    hide Agrees, CountsAgree, Essences, OnInfo, OnPage, Saved, OthersStand;
    if ctx in c.contexts && c.contexts[ctx] != [] && Fits(c.contexts[ctx][0].request, a)
       && c.contexts[ctx][0].channelId in c.channels {
      ArriveStands(c, ctx);
      var r, c', c1 := c.contexts[ctx][0], Deliver(c, ctx, a), Arrive(c, ctx);
      match a
      case FirstBlock(known) => AskSaved(c, ctx, r.(request := if known then ExplorerBlock else Request.Info));
      case BlockSlot(slot) =>
        if slot.Some? && slot.value > 0 {
          JustSaved(chain, c');
        } else {
          AskSaved(c, ctx, r.(request := Request.Info));
        }
      case LibSlot(lib) => InfoSaves(chain, c, ctx, lib);
      case Blocks(body) =>
        assert RequestOk(c.channels[r.channelId], TheReply(c, r.channelId), libs);
        CursorBelow(chain, c, r, libs);
        PageSaves(chain, c, ctx, body);
    }
  }

  lemma CursorBelow(chain: seq<Block>, c: Client, r: Reply, libs: seq<int>)
    requires r.channelId in c.channels && r.request.Page? && RequestOk(c.channels[r.channelId], r, libs)
    requires Agrees(chain, c.channels[r.channelId])
    ensures c.channels[r.channelId].cursor <= r.request.to
  {
    hide FirstById, Decode, Essences, MaxSlot, LastCurator;
  }

  // A reply that only leads to the next question.
  lemma AskSaved(c: Client, ctx: nat, next: Reply)
    requires Owned(c) && Saved(c) && ctx in c.contexts && c.contexts[ctx] != [] && !c.contexts[ctx][0].request.Page?
    ensures Saved(Ask(Arrive(c, ctx), ctx, next))
  {
    hide Essences, Saved;
    ArriveStands(c, ctx);
    var id, c' := c.contexts[ctx][0].channelId, Ask(Arrive(c, ctx), ctx, next);
    NotMidPages(c, id);
    ReplySaved(c, c', id);
  }

  // ----- every step and every run -----

  lemma SavedOrSame(chain: seq<Block>, c: Client, c': Client)
    requires Saved(c) && ChannelsAgree(chain, c') && (c' == c || c'.disk == Some(SaveAll(c'.channels)))
    ensures Saved(c')
  {
    hide Agrees, CountsAgree;
    if c' != c {
      JustSaved(chain, c');
    }
  }

  lemma FollowSaved(chain: seq<Block>, c: Client, libs: seq<int>, id: string, startSlot: nat)
    requires Saved(c) && ChannelsAgree(chain, Scan.Follow(c, id, startSlot))
    ensures Saved(Scan.Follow(c, id, startSlot))
  {
    hide Agrees, CountsAgree, Saved;
    var c' := Scan.Follow(c, id, startSlot);
    if c' != c {
      assert id in c.scanning || c'.channels == c.channels[id := NewChannel(id, startSlot)];
      SavedOrSame(chain, c, c');
    }
  }

  lemma CommandSaved(chain: seq<Block>, w: World, e: Event)
    requires Faithful(chain, w) && Saved(w.client) && Good(chain, ClientStep(chain, w, e), w.libs)
    requires !(e.ExplorerChannelReply? || e.ExplorerBlockReply? || e.InfoReply? || e.PageReply?)
    ensures Saved(ClientStep(chain, w, e))
  {
    hide Agrees, CountsAgree, Essences, Saved, Scan.Reap, OnHealth, Scan.Restart;
    var c := w.client;
    match e
    case Follow(id, startSlot) => FollowSaved(chain, c, w.libs, id, startSlot);
    case Unfollow(id) => SavedOrSame(chain, c, Scan.Unfollow(c, id));
    case Refresh(id) =>
      if id in c.channels && id !in c.scanning {
        StartScanSaved(c, id);
      }
    case SetName(id, name) => SavedOrSame(chain, c, Scan.SetName(c, id, name));
    case SetAuto(id, on) => SavedOrSame(chain, c, SetAutoPreserve(c, id, on));
    case MarkItem(id, index, mark, save) =>
      if save {
        SavedOrSame(chain, c, Scan.MarkItem(c, id, index, mark, save));
      } else {
        MarkSaved(c, id, index, mark);
      }
    case Save => SavedOrSame(chain, c, SaveState(c));
    case HealthReply(online) => HealthSaved(c, online);
    case Reap(ctx) => ReapSaved(c, ctx);
    case Advance(_, _) =>
    case Restart => RestartSaved(c);
  }

  lemma StepSaved(chain: seq<Block>, w: World, e: Event)
    requires Faithful(chain, w) && Saved(w.client)
    ensures Saved(Step(chain, w, e).client)
  {
    hide Faithful, Good, Saved, ClientStep;
    FaithfulIsGood(chain, w);
    if e.ExplorerChannelReply? || e.ExplorerBlockReply? || e.InfoReply? || e.PageReply? {
      ReplyGood(chain, w, e);
      DeliveredSaved(chain, w, e);
    } else {
      CommandGood(chain, w, e);
      CommandSaved(chain, w, e);
    }
  }

  lemma DeliveredSaved(chain: seq<Block>, w: World, e: Event)
    requires Good(chain, w.client, w.libs) && Saved(w.client) && Good(chain, ClientStep(chain, w, e), w.libs)
    requires e.ExplorerChannelReply? || e.ExplorerBlockReply? || e.InfoReply? || e.PageReply?
    ensures Saved(ClientStep(chain, w, e))
  {
    hide Good, Saved, Deliver, LibAnswer, PageAnswer;
    match e
    case ExplorerChannelReply(ctx, known) => DeliverSaved(chain, w.client, w.libs, ctx, FirstBlock(known));
    case ExplorerBlockReply(ctx, slot) => DeliverSaved(chain, w.client, w.libs, ctx, BlockSlot(slot));
    case InfoReply(ctx, ok) => DeliverSaved(chain, w.client, w.libs, ctx, LibSlot(LibAnswer(w, ctx, ok)));
    case PageReply(ctx, outcome) => DeliverSaved(chain, w.client, w.libs, ctx, Blocks(PageAnswer(chain, w, ctx, outcome)));
  }

  // At every point of every run the state file holds the followed channels and no other; of a channel none of whose
  // pages is under way it holds all that was covered and found, and of the others no more than memory.
  lemma {:induction false} RunSaved(chain: seq<Block>, w: World, events: seq<Event>)
    requires Faithful(chain, w) && Saved(w.client)
    ensures Saved(Run(chain, w, events).client) && Faithful(chain, Run(chain, w, events))
    decreases |events|
  {
    hide Faithful, Saved, Step;
    if events != [] {
      StepFaithful(chain, w, events[0]);
      StepSaved(chain, w, events[0]);
      RunSaved(chain, Step(chain, w, events[0]), events[1..]);
    }
  }

  lemma StartSaved(libs: seq<int>, explorer: bool)
    ensures Saved(Start(libs, explorer).client)
  {
  }

  lemma IdleIsOnDisk(c: Client, k: string)
    requires Saved(c) && k in c.channels && k !in c.scanning
    ensures OnDisk(c, k)
  {
  }

  // From the start, whatever happened: a process that dies and starts again follows the same channels, and one
  // whose scan has ended has lost no covered slot, no item and no setting.
  lemma RestartLosesNothingFinished(chain: seq<Block>, libs: seq<int>, explorer: bool, events: seq<Event>)
    requires Ordered(chain) && libs != []
    ensures var w := Run(chain, Start(libs, explorer), events);
            var r := Step(chain, w, Restart).client;
            && r.channels.Keys == w.client.channels.Keys
            && (w.client.disk.Some? ==> w.client.disk.value.Keys == w.client.channels.Keys)
            && (forall k | k in w.client.channels && k !in w.client.scanning ::
                  SameStanding(r.channels[k], w.client.channels[k]))
            && (forall k | k in w.client.channels ::
                  r.channels[k].startSlot == w.client.channels[k].startSlot &&
                  r.channels[k].cursor <= w.client.channels[k].cursor)
  {
    hide Run, Essences, SameStanding, Agrees, CountsAgree, RequestsOk;
    StartFaithful(chain, libs, explorer);
    StartSaved(libs, explorer);
    RunSaved(chain, Start(libs, explorer), events);
    var c := Run(chain, Start(libs, explorer), events).client;
    forall k | k in c.channels && k !in c.scanning ensures OnDisk(c, k) {
      IdleIsOnDisk(c, k);
    }
    assert forall k | k in c.channels :: NoFurther(c, k);
  }

  // ----- the end of a scan -----

  // The step tells that the scan of `id` has ended, and whether all slots up to the finalized end are covered.
  predicate Finishes(c: Client, c': Client, id: string, reached: bool) {
    c'.signals != c.signals && c'.signals != [] && c'.signals[|c'.signals| - 1] == ScanFinished(id, reached)
  }

  lemma NextPageFinishes(c: Client, ctx: nat, x: string, gateway: nat, lib: int, pagesLeft: int, id: string, reached: bool)
    requires x in c.channels
    requires Finishes(c, NextPage(c, ctx, x, gateway, lib, pagesLeft), id, reached)
    ensures var r := NextPage(c, ctx, x, gateway, lib, pagesLeft);
            && id == x && id in r.channels && id !in r.scanning
            && r.channels[id].lastLibSlot == lib && r.channels[id].synced == reached
            && (reached <==> NextSlot(r.channels[id]) > lib)
  {
  }

  lemma NoFinish(c: Client, ctx: nat, x: string, gateway: nat, lib: int, pagesLeft: int)
    requires x in c.channels
    ensures var r := NextPage(c, ctx, x, gateway, lib, pagesLeft);
            r.signals == c.signals || (|r.signals| == |c.signals| + 1 && r.signals[|c.signals|].ScanFinished?)
  {
  }

  lemma PageFinishes(c: Client, ctx: nat, r: Reply, body: PageBody, id: string, reached: bool)
    requires r.channelId in c.channels && r.request.Page? && Finishes(c, OnPage(c, ctx, r, body), id, reached)
    ensures var c' := OnPage(c, ctx, r, body);
            && id == r.channelId && id in c'.channels && id !in c'.scanning
            && (reached ==> c'.channels[id].synced && NextSlot(c'.channels[id]) > c'.channels[id].lastLibSlot)
  {
    hide NextPage, Merge, Added, MaxSlot, LastCurator, Found, PageStats;
    if body.Body? {
      var c1 := WithPage(c, r, body.blocks);
      NoFinish(c1, ctx, r.channelId, r.gateway, r.request.lib, r.request.pagesLeft - 1);
      NextPageFinishes(c1, ctx, r.channelId, r.gateway, r.request.lib, r.request.pagesLeft - 1, id, reached);
    }
  }

  lemma InfoFinishes(c: Client, ctx: nat, r: Reply, lib: Option<int>, id: string, reached: bool)
    requires r.channelId in c.channels && Finishes(c, OnInfo(c, ctx, r, lib), id, reached)
    ensures var c' := OnInfo(c, ctx, r, lib);
            && id == r.channelId && id in c'.channels && id !in c'.scanning
            && (reached ==> c'.channels[id].synced && NextSlot(c'.channels[id]) > c'.channels[id].lastLibSlot)
  {
    hide NextPage;
    if lib.Some? && lib.value > 0 {
      NextPageFinishes(c, ctx, r.channelId, r.gateway, lib.value, MAX_PAGES, id, reached);
    }
  }

  lemma DeliverFinishes(c: Client, ctx: nat, a: Answer, id: string, reached: bool)
    requires Finishes(c, Deliver(c, ctx, a), id, reached)
    ensures var c' := Deliver(c, ctx, a);
            && id in c'.channels && id !in c'.scanning
            && (reached ==> c'.channels[id].synced && NextSlot(c'.channels[id]) > c'.channels[id].lastLibSlot)
  {
    hide OnInfo, OnPage;
    if ctx in c.contexts && c.contexts[ctx] != [] && Fits(c.contexts[ctx][0].request, a)
       && c.contexts[ctx][0].channelId in c.channels {
      var r, c1 := c.contexts[ctx][0], Arrive(c, ctx);
      match a
      case FirstBlock(known) =>
      case BlockSlot(slot) =>
      case LibSlot(lib) => InfoFinishes(c1, ctx, r, lib, id, reached);
      case Blocks(body) => PageFinishes(c1, ctx, r, body, id, reached);
    }
  }

  lemma CommandsFinishNothing(chain: seq<Block>, w: World, e: Event, id: string, reached: bool)
    requires !(e.ExplorerChannelReply? || e.ExplorerBlockReply? || e.InfoReply? || e.PageReply?)
    ensures !Finishes(w.client, ClientStep(chain, w, e), id, reached)
  {
    hide SaveAll;
  }

  // A scan that is told to be finished is on disk at that moment: a restart right then has all it covered and
  // found. If the end was reached, every slot up to the finalized end the gateway named is covered.
  lemma FinishedIsOnDisk(chain: seq<Block>, libs: seq<int>, explorer: bool, events: seq<Event>, e: Event,
                         id: string, reached: bool)
    requires Ordered(chain) && libs != []
    requires var w := Run(chain, Start(libs, explorer), events);
             Finishes(w.client, Step(chain, w, e).client, id, reached)
    ensures var c := Step(chain, Run(chain, Start(libs, explorer), events), e).client;
            && id in c.channels && id in Scan.Restart(c).channels
            && SameStanding(Scan.Restart(c).channels[id], c.channels[id])
            && (reached ==> c.channels[id].synced && NextSlot(c.channels[id]) > c.channels[id].lastLibSlot)
  {
    hide Run, Faithful, Saved, Finishes, Deliver, SameStanding, LibAnswer, PageAnswer;
    StartFaithful(chain, libs, explorer);
    StartSaved(libs, explorer);
    RunSaved(chain, Start(libs, explorer), events);
    var w := Run(chain, Start(libs, explorer), events);
    StepSaved(chain, w, e);
    StepFaithful(chain, w, e);
    match e {
      case ExplorerChannelReply(ctx, known) => DeliverFinishes(w.client, ctx, FirstBlock(known), id, reached);
      case ExplorerBlockReply(ctx, slot) => DeliverFinishes(w.client, ctx, BlockSlot(slot), id, reached);
      case InfoReply(ctx, ok) => DeliverFinishes(w.client, ctx, LibSlot(LibAnswer(w, ctx, ok)), id, reached);
      case PageReply(ctx, outcome) => DeliverFinishes(w.client, ctx, Blocks(PageAnswer(chain, w, ctx, outcome)), id, reached);
      case _ => CommandsFinishNothing(chain, w, e, id, reached);
    }
    var c := Step(chain, w, e).client;
    IdleIsOnDisk(c, id);
    NamedChannels(chain, Step(chain, w, e), id);
  }

  lemma NamedChannels(chain: seq<Block>, w: World, k: string)
    requires Faithful(chain, w) && k in w.client.channels
    ensures k != ""
  {
  }
}
