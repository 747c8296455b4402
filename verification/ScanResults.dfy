/** The main results about scanning, drawn from the invariant of every reachable state. */
module ScanResults {
  import opened Basics
  import opened Inscriptions
  import opened Channels
  import opened Persistence
  import Scan = ScanSteps
  import opened ScanSteps
  import opened ScanRuns
  import opened ScanTheorems

  // ----- items are one decode of the covered slots -----

  // In every run - of follows, refreshes, replies that succeed, fail or are too large, failovers,
  // preserve updates, saves and restarts - each channel's items are, up to preserve state, the first
  // occurrences by id of one decode of all slots it covers; no id shows twice; the newest inscription
  // and the counters of the last scan are exact; and the state file says the same of its channels.
  lemma EveryRunAgrees(chain: seq<Block>, libs: seq<int>, explorer: bool, events: seq<Event>)
    requires Ordered(chain) && libs != []
    ensures var c := Run(chain, Start(libs, explorer), events).client;
            && (forall k | k in c.channels ::
                  && Agrees(chain, c.channels[k])
                  && CountsAgree(chain, c.channels[k])
                  && UniqueIds(c.channels[k].items)
                  && c.channels[k].channelId == k)
            && (c.disk.Some? ==> forall k | k in c.disk.value :: Agrees(chain, LoadChannel(c.disk.value[k])))
            && Owned(c)
  {
    StartFaithful(chain, libs, explorer);
    RunFaithful(chain, Start(libs, explorer), events);
    var c := Run(chain, Start(libs, explorer), events).client;
    hide Agrees, CountsAgree, Run, UniqueIds;
    forall k | k in c.channels ensures UniqueIds(c.channels[k].items) {
      AgreesUnique(chain, c.channels[k]);
    }
  }

  // Before the first page nothing is shown, not even an inscription at the start slot itself.
  lemma NothingCovered(chain: seq<Block>, ch: Channel)
    requires Agrees(chain, ch) && ch.cursor == 0
    ensures ch.items == [] && ch.lastInscription == 0
  {
    SliceEmpty(chain, ch.startSlot);
    assert Decode(chain, ch.channelId, ch.startSlot, ch.startSlot) == [];
    SameIds(ch.items, []);
  }

  // Afterwards the covered slots are startSlot..cursor, and their decode does not depend on how far
  // beyond the cursor the chain is final.
  lemma CoveredSlots(chain: seq<Block>, ch: Channel, lib: int)
    requires 0 < ch.cursor <= lib
    ensures Decode(chain, ch.channelId, ch.startSlot, NextSlot(ch))
         == Matches(Inscribed(Slice(chain, ch.startSlot, ch.cursor + 1), lib), ch.channelId)
  {
    hide Matches;
    var covered := Slice(chain, ch.startSlot, ch.cursor + 1);
    SliceInside(chain, ch.startSlot, ch.cursor + 1);
    BoundIrrelevant(covered, ch.cursor, lib);
    assert NextSlot(ch) - 1 == ch.cursor;
  }

  // Two runs over the same chain, however interrupted, restarted or failed over, that bring a channel to
  // the same cursor show the same items: resuming from any state file equals the uninterrupted scan.
  lemma SameCursorSameItems(chain: seq<Block>, a: Channel, b: Channel)
    requires Agrees(chain, a) && Agrees(chain, b)
    requires a.channelId == b.channelId && a.startSlot == b.startSlot && a.cursor == b.cursor
    ensures Essences(a.items) == Essences(b.items) && Ids(a.items) == Ids(b.items)
    ensures a.lastInscription == b.lastInscription && a.curator == b.curator
  {
    SameIds(a.items, b.items);
    forall i | 0 <= i < |a.items|
      ensures a.items[i].inscribedAtSlot == b.items[i].inscribedAtSlot && a.items[i].curator == b.items[i].curator
    {
      assert Essences(a.items)[i] == Essences(b.items)[i];
      EssenceKeeps(a.items[i]);
      EssenceKeeps(b.items[i]);
    }
    SameNewest(a.items, b.items);
  }

  lemma ResumeEqualsUninterrupted(chain: seq<Block>, libs1: seq<int>, events1: seq<Event>,
                                  libs2: seq<int>, events2: seq<Event>, explorer: bool, id: string)
    requires Ordered(chain) && libs1 != [] && libs2 != []
    requires id in Run(chain, Start(libs1, explorer), events1).client.channels
    requires id in Run(chain, Start(libs2, explorer), events2).client.channels
    ensures var a := Run(chain, Start(libs1, explorer), events1).client.channels[id];
            var b := Run(chain, Start(libs2, explorer), events2).client.channels[id];
            a.startSlot == b.startSlot && a.cursor == b.cursor ==>
              Essences(a.items) == Essences(b.items) && a.lastInscription == b.lastInscription && a.curator == b.curator
  {
    hide Agrees, CountsAgree, Run, UniqueIds;
    EveryRunAgrees(chain, libs1, explorer, events1);
    EveryRunAgrees(chain, libs2, explorer, events2);
    var a := Run(chain, Start(libs1, explorer), events1).client.channels[id];
    var b := Run(chain, Start(libs2, explorer), events2).client.channels[id];
    if a.startSlot == b.startSlot && a.cursor == b.cursor {
      SameCursorSameItems(chain, a, b);
    }
  }

  // Why a scan is pinned to one gateway. If a page up to `to` were answered from a view that ends at
  // `view`, the agreement would survive exactly when the slots it lacks hold no new item.
  lemma UnpinnedPage(chain: seq<Block>, ch: Channel, page: ScanStats, view: int, to: int)
    requires Ordered(chain) && Agrees(chain, ch) && NextSlot(ch) <= to && NextSlot(ch) <= view + 1 <= to + 1 && 0 < to
    ensures var seen := Decode(chain, ch.channelId, NextSlot(ch), view + 1);
            var missed := Decode(chain, ch.channelId, view + 1, to + 1);
            Agrees(chain, MergePage(ch, seen, page, NextSlot(ch), to))
            <==> Added(Merge(ch.items, seen), missed) == []
  {
    hide FirstById, Decode, Essences, MaxSlot, LastCurator, Merge;
    var seen := Decode(chain, ch.channelId, NextSlot(ch), view + 1);
    var missed := Decode(chain, ch.channelId, view + 1, to + 1);
    var all := FirstById(Decode(chain, ch.channelId, ch.startSlot, to + 1));
    var items := Merge(ch.items, seen);
    ItemsAfterPage(chain, ch.items, ch.channelId, ch.startSlot, NextSlot(ch), view + 1);
    ItemsAfterPage(chain, items, ch.channelId, ch.startSlot, view + 1, to + 1);
    NewestAfterPage(ch.items, seen);
    var ch' := MergePage(ch, seen, page, NextSlot(ch), to);
    assert ch'.items == items && NextSlot(ch') == to + 1;
    assert Agrees(chain, ch') <==> Essences(items) == Essences(all);
    MissedItems(items, missed, all);
  }

  lemma MissedItems(items: seq<Item>, missed: seq<Item>, all: seq<Item>)
    requires Essences(Merge(items, missed)) == Essences(all)
    ensures Essences(items) == Essences(all) <==> Added(items, missed) == []
  {
    MergeSplits(items, missed);
    SameIds(Merge(items, missed), all);
    if Essences(items) == Essences(all) {
      SameIds(items, all);
    }
    if Added(items, missed) == [] {
      assert Merge(items, missed) == items;
    }
  }

  // ----- no reply from before an unfollow -----

  // Every reply outstanding for `id` belongs to a context created at or after `n`.
  ghost predicate IssuedSince(c: Client, id: string, n: nat) {
    && n <= c.nextContext
    && (forall x | x in c.contexts && c.contexts[x] != [] && c.contexts[x][0].channelId == id :: n <= x)
  }

  lemma UnfollowCancels(c: Client, id: string)
    requires Owned(c) && id in c.channels
    ensures IssuedSince(Scan.Unfollow(c, id), id, c.nextContext)
  {
    var c' := Scan.Unfollow(c, id);
    forall x | x in c'.contexts && c'.contexts[x] != [] ensures c'.contexts[x][0].channelId != id {
      assert OwnedContext(c, x);
    }
  }

  lemma StartScanIssued(c: Client, id: string, id': string, n: nat)
    requires IssuedSince(c, id, n) && id' in c.channels
    ensures IssuedSince(StartScan(c, id'), id, n)
  {
  }

  lemma NextPageIssued(c: Client, ctx: nat, id': string, gateway: nat, lib: int, pagesLeft: int, id: string, n: nat)
    requires IssuedSince(c, id, n) && id' in c.channels && ctx in c.contexts && c.contexts[ctx] == []
    requires id' == id ==> n <= ctx
    ensures IssuedSince(NextPage(c, ctx, id', gateway, lib, pagesLeft), id, n)
  {
  }

  lemma DeliverIssued(c: Client, ctx: nat, a: Answer, id: string, n: nat)
    requires Owned(c) && IssuedSince(c, id, n)
    ensures IssuedSince(Deliver(c, ctx, a), id, n)
  {
    hide MergePage, Found, PageStats, NextPage, SaveAll;
    if ctx in c.contexts && c.contexts[ctx] != [] && Fits(c.contexts[ctx][0].request, a)
       && c.contexts[ctx][0].channelId in c.channels {
      var r, c' := c.contexts[ctx][0], Arrive(c, ctx);
      assert OwnedContext(c, ctx);
      assert IssuedSince(c', id, n) && c'.contexts[ctx] == [];
      match a
      case FirstBlock(known) =>
      case BlockSlot(slot) =>
      case LibSlot(lib) =>
        if lib.Some? && lib.value > 0 {
          NextPageIssued(c', ctx, r.channelId, r.gateway, lib.value, MAX_PAGES, id, n);
        }
      case Blocks(body) =>
        if body.Body? {
          var c1 := WithPage(c', r, body.blocks);
          assert IssuedSince(c1, id, n) && c1.contexts == c'.contexts;
          NextPageIssued(c1, ctx, r.channelId, r.gateway, r.request.lib, r.request.pagesLeft - 1, id, n);
        }
    }
  }

  lemma StepIssued(chain: seq<Block>, w: World, e: Event, id: string, n: nat)
    requires Owned(w.client) && IssuedSince(w.client, id, n)
    ensures IssuedSince(ClientStep(chain, w, e), id, n)
  {
    hide Deliver, SaveAll, LoadAll, StartScan;
    var c := w.client;
    match e
    case Follow(id', startSlot) =>
      if id' != "" && id' !in c.channels {
        StartScanIssued(SaveState(WithChannel(c, id', NewChannel(id', startSlot))), id, id', n);
      }
    case Refresh(id') =>
      if id' in c.channels {
        StartScanIssued(c, id, id', n);
      }
    case ExplorerChannelReply(ctx, known) => DeliverIssued(c, ctx, FirstBlock(known), id, n);
    case ExplorerBlockReply(ctx, slot) => DeliverIssued(c, ctx, BlockSlot(slot), id, n);
    case InfoReply(ctx, ok) => DeliverIssued(c, ctx, LibSlot(LibAnswer(w, ctx, ok)), id, n);
    case PageReply(ctx, outcome) => DeliverIssued(c, ctx, Blocks(PageAnswer(chain, w, ctx, outcome)), id, n);
    case _ =>
  }

  lemma {:induction false} RunIssued(chain: seq<Block>, w: World, events: seq<Event>, id: string, n: nat)
    requires Faithful(chain, w) && IssuedSince(w.client, id, n)
    ensures IssuedSince(Run(chain, w, events).client, id, n)
    decreases |events|
  {
    hide Good, Books, RequestsOk, ClientStep;
    if events != [] {
      StepIssued(chain, w, events[0], id, n);
      StepFaithful(chain, w, events[0]);
      RunIssued(chain, Step(chain, w, events[0]), events[1..], id, n);
    }
  }

  // After an unfollow, whatever happens next - following the same id again included - no context that
  // existed before it ever holds a reply for that channel again.
  lemma NoStaleReply(chain: seq<Block>, w: World, id: string, events: seq<Event>)
    requires Faithful(chain, w) && id in w.client.channels
    ensures var w' := Run(chain, Step(chain, w, Unfollow(id)), events);
            && (forall x | x in w.client.contexts :: x < w.client.nextContext)
            && IssuedSince(w'.client, id, w.client.nextContext)
  {
    hide Books, RequestsOk;
    UnfollowCancels(w.client, id);
    StepFaithful(chain, w, Unfollow(id));
    RunIssued(chain, Step(chain, w, Unfollow(id)), events, id, w.client.nextContext);
    forall x | x in w.client.contexts ensures x < w.client.nextContext {
      assert OwnedContext(w.client, x);
    }
  }

  // A channel is as it was, there or not.
  predicate SameChannel(c: Client, c': Client, id: string) {
    (id in c'.channels <==> id in c.channels) && (id in c.channels ==> c'.channels[id] == c.channels[id])
  }

  lemma NextPageOfOther(c: Client, ctx: nat, x: string, gateway: nat, lib: int, pagesLeft: int, id: string)
    requires x in c.channels && x != id
    ensures SameChannel(c, NextPage(c, ctx, x, gateway, lib, pagesLeft), id)
  {
    hide SaveAll;
  }

  lemma PageOfOther(c: Client, ctx: nat, r: Reply, body: PageBody, id: string)
    requires r.channelId in c.channels && r.request.Page? && r.channelId != id
    ensures SameChannel(c, OnPage(c, ctx, r, body), id)
  {
    hide SaveAll, MergePage, Found, PageStats, Added, Ids, NextPage;
    if body.Body? {
      NextPageOfOther(WithPage(c, r, body.blocks), ctx, r.channelId, r.gateway, r.request.lib,
                      r.request.pagesLeft - 1, id);
    }
  }

  lemma InfoOfOther(c: Client, ctx: nat, r: Reply, lib: Option<int>, id: string)
    requires r.channelId in c.channels && r.channelId != id
    ensures SameChannel(c, OnInfo(c, ctx, r, lib), id)
  {
    hide NextPage;
    if lib.Some? {
      NextPageOfOther(c, ctx, r.channelId, r.gateway, lib.value, MAX_PAGES, id);
    }
  }

  // What an old context could still deliver does not touch the channel.
  lemma OldContextHarmless(c: Client, id: string, n: nat, ctx: nat, a: Answer)
    requires IssuedSince(c, id, n) && ctx < n
    ensures SameChannel(c, Deliver(c, ctx, a), id)
  {
    hide OnPage, OnInfo, SaveAll;
    if ctx in c.contexts && c.contexts[ctx] != [] && Fits(c.contexts[ctx][0].request, a)
       && c.contexts[ctx][0].channelId in c.channels {
      var r, c' := c.contexts[ctx][0], Arrive(c, ctx);
      match a
      case LibSlot(lib) => InfoOfOther(c', ctx, r, lib, id);
      case Blocks(body) => PageOfOther(c', ctx, r, body, id);
      case _ =>
    }
  }

  // So no delivery on a context from before an unfollow ever changes a refollowed channel of the same id.
  lemma StaleDeliveryHarmless(chain: seq<Block>, w: World, id: string, events: seq<Event>, ctx: nat, a: Answer)
    requires Faithful(chain, w) && id in w.client.channels && ctx in w.client.contexts
    ensures var c := Run(chain, Step(chain, w, Unfollow(id)), events).client;
            SameChannel(c, Deliver(c, ctx, a), id)
  {
    hide Faithful, IssuedSince, Run, Step, Deliver;
    NoStaleReply(chain, w, id, events);
    OldContextHarmless(Run(chain, Step(chain, w, Unfollow(id)), events).client, id, w.client.nextContext, ctx, a);
  }
}
