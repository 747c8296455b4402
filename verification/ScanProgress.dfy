/** How far a scan gets: the pages it fetches, the slots it covers, and how many refreshes a history takes. */
module ScanProgress {
  import opened Basics
  import opened Inscriptions
  import opened Channels
  import opened Persistence
  import Scan = ScanSteps
  import opened ScanSteps
  import opened ScanRuns
  import opened ScanTheorems

  const SCAN_SLOTS := PAGE_SLOTS * MAX_PAGES

  function CeilDiv(n: int, d: int): int
    requires d > 0
  {
    (n + d - 1) / d
  }

  // The scan of channel `id` waits for the next page of a view that ends at `lib`.
  ghost predicate WaitsForPage(w: World, id: string, ctx: nat, lib: int, pagesLeft: int) {
    var c := w.client;
    && OneReply(c, id) && c.scanning[id] == ctx
    && TheReply(c, id).request.Page?
    && TheReply(c, id).request.lib == lib && TheReply(c, id).request.pagesLeft == pagesLeft
  }

  // The scan of channel `id` has ended, and said so.
  ghost predicate Ended(w: World, id: string, synced: bool) {
    var c := w.client;
    && id in c.channels && id !in c.scanning
    && c.channels[id].synced == synced
    && c.signals != [] && c.signals[|c.signals| - 1] == ScanFinished(id, synced)
  }

  ghost predicate Quiet(w: World, ctx: nat) {
    ctx !in w.client.contexts || w.client.contexts[ctx] == []
  }

  // What does not change while pages arrive.
  ghost predicate SameSetting(w: World, w': World) {
    && w'.libs == w.libs && w'.client.active == w.client.active && w'.client.gateways == w.client.gateways
    && w'.client.explorer == w.client.explorer && w'.client.nextContext == w.client.nextContext
  }

  lemma NextPageOutcome(c: Client, ctx: nat, id: string, gateway: nat, lib: int, pagesLeft: int)
    requires id in c.channels && id in c.scanning && c.scanning[id] == ctx && ctx in c.contexts && c.contexts[ctx] == []
    ensures var c' := NextPage(c, ctx, id, gateway, lib, pagesLeft); var ch := c.channels[id];
            && id in c'.channels && NextSlot(c'.channels[id]) == NextSlot(ch)
            && c'.channels[id].lastScan == ch.lastScan && c'.channels[id].startSlot == ch.startSlot
            && c'.active == c.active && c'.gateways == c.gateways && c'.explorer == c.explorer && c'.nextContext == c.nextContext
            && ctx in c'.contexts
            && (if NextSlot(ch) > lib || pagesLeft <= 0 then
                  c'.contexts[ctx] == [] && id !in c'.scanning && c'.channels[id].synced == (NextSlot(ch) > lib)
                  && c'.signals == c.signals + [ScanFinished(id, NextSlot(ch) > lib)]
                else
                  id in c'.scanning && c'.scanning[id] == ctx
                  && c'.contexts[ctx] ==
                     [Reply(id, gateway, Page(lib, pagesLeft, NextSlot(ch), Min(NextSlot(ch) + PAGE_SLOTS - 1, lib)))])
  {
    hide SaveAll;
  }

  lemma WithPageOutcome(c: Client, r: Reply, blocks: seq<Block>)
    requires r.channelId in c.channels && r.request.Page? && r.request.to > 0
    ensures var c' := WithPage(c, r, blocks); var id := r.channelId;
            && id in c'.channels && NextSlot(c'.channels[id]) == r.request.to + 1
            && c'.channels[id].lastScan.pages == c.channels[id].lastScan.pages + 1
            && c'.channels[id].lastScan.scannedSlots == c.channels[id].lastScan.scannedSlots + r.request.to - r.request.from + 1
            && c' == c.(channels := c'.channels, signals := c'.signals)
            && c'.channels[id].startSlot == c.channels[id].startSlot
  {
    hide Merge, Matches, Inscribed, TallyOf, MaxSlot, LastCurator, NotFinalized;
  }

  // One page served: the scan covers it, and then either ends or waits for the page after it.
  lemma OnePage(chain: seq<Block>, w: World, id: string, ctx: nat, lib: int, pagesLeft: int)
    requires Faithful(chain, w) && WaitsForPage(w, id, ctx, lib, pagesLeft)
    ensures var w' := Step(chain, w, PageReply(ctx, Served));
            var ch := w.client.channels[id]; var to := Min(NextSlot(ch) + PAGE_SLOTS - 1, lib);
            && 0 < pagesLeft && NextSlot(ch) <= lib
            && SameSetting(w, w') && id in w'.client.channels
            && NextSlot(w'.client.channels[id]) == to + 1
            && w'.client.channels[id].lastScan.pages == ch.lastScan.pages + 1
            && w'.client.channels[id].startSlot == ch.startSlot
            && (if to + 1 > lib || pagesLeft == 1 then Ended(w', id, to + 1 > lib) && Quiet(w', ctx)
                else WaitsForPage(w', id, ctx, lib, pagesLeft - 1))
  {
    hide Agrees, CountsAgree, WithPage, NextPage, Slice;
    var c := w.client;
    var r := TheReply(c, id);
    assert RequestOk(c.channels[id], r, w.libs);
    ArriveServing(c, ctx);
    AgreesBasics(chain, c.channels[id]);
    var c1 := Arrive(c, ctx);
    var blocks := Slice(chain, r.request.from, Min(r.request.to, w.libs[r.gateway]) + 1);
    WithPageOutcome(c1, r, blocks);
    var c2 := WithPage(c1, r, blocks);
    NextPageOutcome(c2, ctx, id, r.gateway, lib, pagesLeft - 1);
    assert Step(chain, w, PageReply(ctx, Served)).client == NextPage(c2, ctx, id, r.gateway, lib, pagesLeft - 1);
  }

  function Pages(ctx: nat, n: nat): seq<Event> {
    seq(n, i => PageReply(ctx, Served))
  }

  lemma RunPages(chain: seq<Block>, w: World, ctx: nat, n: nat)
    requires n > 0
    ensures Run(chain, w, Pages(ctx, n)) == Run(chain, Step(chain, w, PageReply(ctx, Served)), Pages(ctx, n - 1))
  {
    assert Pages(ctx, n)[1..] == Pages(ctx, n - 1);
  }

  // Page replies that find no scan waiting change nothing.
  lemma {:induction false} NobodyWaits(chain: seq<Block>, w: World, ctx: nat, n: nat)
    requires Quiet(w, ctx)
    ensures Run(chain, w, Pages(ctx, n)) == w
  {
    if n > 0 {
      RunPages(chain, w, ctx, n);
      NobodyWaits(chain, w, ctx, n - 1);
    }
  }

  // An uninterrupted scan that waits for its next page with `pagesLeft` to go and N slots before the
  // end of its view: it fetches min(pagesLeft, ceil(N / 2000)) pages, covers min(N, 2000 * pagesLeft)
  // slots, and reports having reached the end exactly when N fits.
  lemma {:induction false} UninterruptedPages(chain: seq<Block>, w: World, id: string, ctx: nat, lib: int, pagesLeft: nat, n: nat)
    requires Faithful(chain, w) && WaitsForPage(w, id, ctx, lib, pagesLeft) && n >= pagesLeft
    ensures var ch := w.client.channels[id]; var todo := lib - NextSlot(ch) + 1;
            var w' := Run(chain, w, Pages(ctx, n));
            && Ended(w', id, todo <= PAGE_SLOTS * pagesLeft)
            && NextSlot(w'.client.channels[id]) == NextSlot(ch) + Min(todo, PAGE_SLOTS * pagesLeft)
            && w'.client.channels[id].lastScan.pages == ch.lastScan.pages + Min(pagesLeft, CeilDiv(todo, PAGE_SLOTS))
            && w'.client.channels[id].startSlot == ch.startSlot
            && SameSetting(w, w') && Faithful(chain, w')
    decreases n
  {
    hide Faithful, Step, Run;
    var w1 := Step(chain, w, PageReply(ctx, Served));
    OnePage(chain, w, id, ctx, lib, pagesLeft);
    StepFaithful(chain, w, PageReply(ctx, Served));
    RunPages(chain, w, ctx, n);
    var ch := w.client.channels[id];
    var to := Min(NextSlot(ch) + PAGE_SLOTS - 1, lib);
    if to + 1 > lib || pagesLeft == 1 {
      NobodyWaits(chain, w1, ctx, n - 1);
    } else {
      UninterruptedPages(chain, w1, id, ctx, lib, pagesLeft - 1, n - 1);
    }
  }

  // ----- one refresh, undisturbed -----

  ghost predicate WaitsForInfo(w: World, id: string, ctx: nat, gateway: nat) {
    var c := w.client;
    OneReply(c, id) && c.scanning[id] == ctx && TheReply(c, id).gateway == gateway && TheReply(c, id).request == Info
  }

  // A refresh of an idle channel, its explorer lookup (if any) fruitless, brings it to wait for the
  // finalized end of the active gateway's view.
  lemma AsksForInfo(chain: seq<Block>, w: World, id: string)
    requires Faithful(chain, w) && id in w.client.channels && id !in w.client.scanning
    ensures var ctx := w.client.nextContext; var ch := w.client.channels[id];
            var w' := Step(chain, Step(chain, w, Refresh(id)), ExplorerChannelReply(ctx, false));
            && Faithful(chain, w')
            && WaitsForInfo(w', id, ctx, w.client.active)
            && w'.client.channels[id] == ch.(lastScan := NO_STATS)
            && w'.libs == w.libs && w'.client.active == w.client.active && w'.client.gateways == w.client.gateways
  {
    hide Good, Books, RequestsOk;
    var ctx := w.client.nextContext;
    StepFaithful(chain, w, Refresh(id));
    StepFaithful(chain, Step(chain, w, Refresh(id)), ExplorerChannelReply(ctx, false));
    RefreshAsks(w.client, id);
  }

  lemma RefreshAsks(c: Client, id: string)
    requires Owned(c) && id in c.channels && id !in c.scanning
    ensures var ctx := c.nextContext; var c' := Deliver(Scan.Refresh(c, id), ctx, FirstBlock(false));
            && OneReply(c', id) && c'.scanning[id] == ctx
            && c'.contexts[ctx] == [Reply(id, c.active, Info)]
            && c'.channels[id] == c.channels[id].(lastScan := NO_STATS)
            && c'.active == c.active && c'.gateways == c.gateways
  {
  }

  lemma InfoServed(chain: seq<Block>, w: World, id: string, ctx: nat, gateway: nat)
    requires Faithful(chain, w) && WaitsForInfo(w, id, ctx, gateway) && gateway < |w.libs| && w.libs[gateway] > 0
    ensures var lib := w.libs[gateway]; var ch := w.client.channels[id]; var w' := Step(chain, w, InfoReply(ctx, true));
            && SameSetting(w, w') && id in w'.client.channels && Faithful(chain, w')
            && NextSlot(w'.client.channels[id]) == NextSlot(ch) && w'.client.channels[id].lastScan == ch.lastScan
            && w'.client.channels[id].startSlot == ch.startSlot
            && (if NextSlot(ch) > lib then Ended(w', id, true) && Quiet(w', ctx)
                else WaitsForPage(w', id, ctx, lib, MAX_PAGES))
  {
    hide Good, Books, RequestsOk, NextPage;
    StepFaithful(chain, w, InfoReply(ctx, true));
    var c := w.client;
    var r := TheReply(c, id);
    ArriveServing(c, ctx);
    NextPageOutcome(Arrive(c, ctx), ctx, id, r.gateway, w.libs[gateway], MAX_PAGES);
    assert Step(chain, w, InfoReply(ctx, true)).client
        == NextPage(Arrive(c, ctx), ctx, id, r.gateway, w.libs[gateway], MAX_PAGES);
  }

  // The finalized end the active gateway knows.
  function ActiveLib(w: World): int {
    if w.client.active < |w.libs| then w.libs[w.client.active] else 0
  }

  function Round(chain: seq<Block>, w: World, id: string): World {
    var ctx := w.client.nextContext;
    var asked := Step(chain, Step(chain, w, Refresh(id)), ExplorerChannelReply(ctx, false));
    Run(chain, Step(chain, asked, InfoReply(ctx, true)), Pages(ctx, MAX_PAGES))
  }

  // One undisturbed refresh over N slots fetches min(100, ceil(N / 2000)) pages, covers min(N, 200000)
  // slots, and reports reachedLib exactly when N <= 200000.
  lemma UninterruptedRefresh(chain: seq<Block>, w: World, id: string)
    requires Faithful(chain, w) && id in w.client.channels && id !in w.client.scanning
    requires ActiveLib(w) > 0
    ensures var ch := w.client.channels[id]; var n := ActiveLib(w) - NextSlot(ch) + 1;
            var w' := Round(chain, w, id);
            && Faithful(chain, w')
            && Ended(w', id, n <= SCAN_SLOTS)
            && NextSlot(w'.client.channels[id]) == NextSlot(ch) + Min(Max(n, 0), SCAN_SLOTS)
            && w'.client.channels[id].lastScan.pages == Min(MAX_PAGES, CeilDiv(Max(n, 0), PAGE_SLOTS))
            && w'.client.channels[id].startSlot == ch.startSlot
            && w'.libs == w.libs && w'.client.active == w.client.active
  {
    hide Faithful, Step, Run;
    ActiveInRange(chain, w);
    var ctx := w.client.nextContext;
    AsksForInfo(chain, w, id);
    var asked := Step(chain, Step(chain, w, Refresh(id)), ExplorerChannelReply(ctx, false));
    InfoServed(chain, asked, id, ctx, w.client.active);
    var told := Step(chain, asked, InfoReply(ctx, true));
    var lib := w.libs[w.client.active];
    if NextSlot(w.client.channels[id]) > lib {
      NobodyWaits(chain, told, ctx, MAX_PAGES);
    } else {
      UninterruptedPages(chain, told, id, ctx, lib, MAX_PAGES, MAX_PAGES);
    }
  }

  lemma ActiveInRange(chain: seq<Block>, w: World)
    requires Faithful(chain, w)
    ensures w.client.active < |w.libs|
  {
  }

  // ----- chained refreshes -----

  function Rounds(chain: seq<Block>, w: World, id: string, k: nat): World
    decreases k
  {
    if k == 0 then w else Rounds(chain, Round(chain, w, id), id, k - 1)
  }

  // How many refreshes a history of n slots takes.
  function RoundsNeeded(n: int): nat {
    Max(1, CeilDiv(n, SCAN_SLOTS))
  }

  // From `w` to `w'`, k chained refreshes of channel `id` have covered min(N, 200000 * k) of the N slots
  // that were left, and the last one reported the end reached exactly when k suffices.
  ghost predicate CoveredBy(w: World, w': World, id: string, k: nat)
    requires id in w.client.channels
  {
    var n := ActiveLib(w) - NextSlot(w.client.channels[id]) + 1;
    && Ended(w', id, k >= RoundsNeeded(n))
    && NextSlot(w'.client.channels[id]) == NextSlot(w.client.channels[id]) + Min(Max(n, 0), SCAN_SLOTS * k)
  }

  // At a fixed finalized end, chained refreshes finish after exactly max(1, ceil(N / 200000)) scans.
  lemma {:induction false} ChainedRefreshes(chain: seq<Block>, w: World, id: string, k: nat)
    requires Faithful(chain, w) && id in w.client.channels && id !in w.client.scanning && ActiveLib(w) > 0 && k > 0
    ensures Faithful(chain, Rounds(chain, w, id, k)) && CoveredBy(w, Rounds(chain, w, id, k), id, k)
    decreases k
  {
    hide Faithful, Step, Run, Round;
    UninterruptedRefresh(chain, w, id);
    var w1 := Round(chain, w, id);
    if k > 1 {
      ChainedRefreshes(chain, w1, id, k - 1);
    } else {
      assert Rounds(chain, w, id, 1) == Rounds(chain, w1, id, 0) == w1;
    }
  }
}
