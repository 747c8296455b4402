/** Runs of the scan machine against gateways that each hold a finalized prefix of one chain: what every
    reachable state, and every state file, says about the chain. */
module ScanRuns {
  import opened Basics
  import opened Inscriptions
  import opened Channels
  import opened Persistence
  import Scan = ScanSteps
  import opened ScanSteps

  // `libs[g]` is the last slot of gateway g's finalized view. It only grows.
  datatype World = World(client: Client, libs: seq<int>)

  datatype PageOutcome = Served | Lost | Oversize

  datatype Event =
    | Follow(id: string, startSlot: nat)
    | Unfollow(id: string)
    | Refresh(id: string)
    | SetName(id: string, name: string)
    | SetAuto(id: string, on: bool)
    | MarkItem(id: string, index: nat, mark: Mark, save: bool)
    | Save
    | ExplorerChannelReply(ctx: nat, known: bool)
    | ExplorerBlockReply(ctx: nat, slot: Option<int>)
    | InfoReply(ctx: nat, ok: bool)
    | PageReply(ctx: nat, outcome: PageOutcome)
    | HealthReply(online: Option<bool>)
    | Reap(ctx: nat)
    | Advance(gateway: nat, lib: int)
    | Restart

  // What the pinned gateway of the outstanding request answers: its own finalized blocks of the page.
  function PageAnswer(chain: seq<Block>, w: World, ctx: nat, outcome: PageOutcome): PageBody {
    match outcome
    case Lost => Unreachable
    case Oversize => TooLarge
    case Served =>
      if ctx in w.client.contexts && w.client.contexts[ctx] != [] then
        var r := w.client.contexts[ctx][0];
        if r.request.Page? && r.gateway < |w.libs| then
          Body(Slice(chain, r.request.from, Min(r.request.to, w.libs[r.gateway]) + 1))
        else Body([])
      else Body([])
  }

  function LibAnswer(w: World, ctx: nat, ok: bool): Option<int> {
    if ok && ctx in w.client.contexts && w.client.contexts[ctx] != [] && w.client.contexts[ctx][0].gateway < |w.libs|
    then Some(w.libs[w.client.contexts[ctx][0].gateway])
    else None
  }

  function ClientStep(chain: seq<Block>, w: World, e: Event): Client {
    var c := w.client;
    match e
    case Follow(id, startSlot) => Scan.Follow(c, id, startSlot)
    case Unfollow(id) => Scan.Unfollow(c, id)
    case Refresh(id) => Scan.Refresh(c, id)
    case SetName(id, name) => Scan.SetName(c, id, name)
    case SetAuto(id, on) => Scan.SetAutoPreserve(c, id, on)
    case MarkItem(id, index, mark, save) => Scan.MarkItem(c, id, index, mark, save)
    case Save => SaveState(c)
    case ExplorerChannelReply(ctx, known) => Deliver(c, ctx, FirstBlock(known))
    case ExplorerBlockReply(ctx, slot) => Deliver(c, ctx, BlockSlot(slot))
    case InfoReply(ctx, ok) => Deliver(c, ctx, LibSlot(LibAnswer(w, ctx, ok)))
    case PageReply(ctx, outcome) => Deliver(c, ctx, Blocks(PageAnswer(chain, w, ctx, outcome)))
    case HealthReply(online) => OnHealth(c, online)
    case Reap(ctx) => Scan.Reap(c, ctx)
    case Advance(_, _) => c
    case Restart => Scan.Restart(c)
  }

  function Step(chain: seq<Block>, w: World, e: Event): World {
    World(ClientStep(chain, w, e),
          if e.Advance? && e.gateway < |w.libs| then w.libs[e.gateway := Max(w.libs[e.gateway], e.lib)] else w.libs)
  }

  function Run(chain: seq<Block>, w: World, events: seq<Event>): World
    decreases |events|
  {
    if events == [] then w else Run(chain, Step(chain, w, events[0]), events[1..])
  }

  function Start(libs: seq<int>, explorer: bool): World {
    World(NewClient(|libs|, explorer), libs)
  }

  // ----- the invariant -----

  function TheReply(c: Client, id: string): Reply
    requires OneReply(c, id)
  {
    c.contexts[c.scanning[id]][0]
  }

  // What an outstanding request still knows about its channel.
  ghost predicate RequestOk(ch: Channel, r: Reply, libs: seq<int>) {
    match r.request
    case ExplorerChannel => ch.startSlot == 0 && ch.cursor == 0 && ch.lastScan == NO_STATS
    case ExplorerBlock => ch.startSlot == 0 && ch.cursor == 0 && ch.lastScan == NO_STATS
    case Info => ch.lastScan == NO_STATS
    case Page(lib, pagesLeft, from, to) =>
      && from == NextSlot(ch) <= lib && to == Min(from + PAGE_SLOTS - 1, lib)
      && r.gateway < |libs| && 0 < lib <= libs[r.gateway] && ch.lastLibSlot == lib
      && 0 < pagesLeft && pagesLeft + ch.lastScan.pages == MAX_PAGES
      && ch.lastScan.scannedSlots == PAGE_SLOTS * ch.lastScan.pages
  }

  ghost predicate RequestsOk(c: Client, libs: seq<int>)
    requires Owned(c)
  {
    forall k | k in c.scanning :: OneReply(c, k) && RequestOk(c.channels[k], TheReply(c, k), libs)
  }

  // Every channel in memory agrees with the chain, and so does every channel of the state file.
  ghost predicate ChannelsAgree(chain: seq<Block>, c: Client) {
    forall k | k in c.channels :: Agrees(chain, c.channels[k]) && CountsAgree(chain, c.channels[k])
  }

  ghost predicate DiskAgrees(chain: seq<Block>, c: Client) {
    c.disk.Some? ==>
      forall k | k in c.disk.value :: k != "" && c.disk.value[k].channelId == k && Agrees(chain, LoadChannel(c.disk.value[k]))
  }

  ghost predicate Books(chain: seq<Block>, c: Client) {
    ChannelsAgree(chain, c) && DiskAgrees(chain, c)
  }

  ghost predicate Faithful(chain: seq<Block>, w: World) {
    && Ordered(chain) && |w.libs| == w.client.gateways
    && Owned(w.client)
    && Books(chain, w.client)
    && RequestsOk(w.client, w.libs)
  }

  // ----- channel records -----

  lemma SameLength(chain: seq<Block>, ch: Channel)
    requires Agrees(chain, ch)
    ensures |ch.items| == |FirstById(Decode(chain, ch.channelId, ch.startSlot, NextSlot(ch)))|
  {
    SameIds(ch.items, FirstById(Decode(chain, ch.channelId, ch.startSlot, NextSlot(ch))));
  }

  lemma FreshCounts(chain: seq<Block>, ch: Channel)
    requires Agrees(chain, ch) && ch.lastScan.(oversizedBodies := 0) == NO_STATS
    ensures CountsAgree(chain, ch)
  {
    SameLength(chain, ch);
    SliceEmpty(chain, NextSlot(ch));
    assert OpsIn(chain, NextSlot(ch), NextSlot(ch)) == [];
  }

  lemma NewChannelAgrees(chain: seq<Block>, id: string, startSlot: nat)
    ensures Agrees(chain, NewChannel(id, startSlot)) && CountsAgree(chain, NewChannel(id, startSlot))
  {
    var ch := NewChannel(id, startSlot);
    SliceEmpty(chain, startSlot);
    assert Decode(chain, id, startSlot, startSlot) == [];
    assert Essences(ch.items) == Essences([]);
    FreshCounts(chain, ch);
  }

  lemma ItemsOfChannel(chain: seq<Block>, ch: Channel)
    requires Agrees(chain, ch)
    ensures forall c | c in ch.items :: c.channelId == ch.channelId
  {
    var found := Decode(chain, ch.channelId, ch.startSlot, NextSlot(ch));
    var first := FirstById(found);
    FirstByIdFrom(found);
    SameIds(ch.items, first);
    forall i | 0 <= i < |ch.items| ensures ch.items[i].channelId == ch.channelId {
      assert Essences(ch.items)[i] == Essences(first)[i];
      EssenceKeeps(ch.items[i]);
      EssenceKeeps(first[i]);
      assert first[i] in found;
      var k :| 0 <= k < |found| && found[k] == first[i];
      MatchesAre(OpsIn(chain, ch.startSlot, NextSlot(ch)), ch.channelId, k);
    }
  }

  lemma {:induction false} FirstByIdFrom(found: seq<Item>)
    ensures forall c | c in FirstById(found) :: c in found
  {
    if found != [] {
      FirstByIdFrom(found[..|found| - 1]);
    }
  }

  lemma {:induction false} SameNewest(a: seq<Item>, b: seq<Item>)
    requires |a| == |b|
    requires forall i | 0 <= i < |a| :: a[i].inscribedAtSlot == b[i].inscribedAtSlot && a[i].curator == b[i].curator
    ensures MaxSlot(0, a) == MaxSlot(0, b) && LastCurator("", a) == LastCurator("", b)
  {
    if a != [] {
      SameNewest(a[..|a| - 1], b[..|b| - 1]);
    }
  }

  // What is written for an agreeing channel agrees again once it is loaded.
  lemma SavedAgrees(chain: seq<Block>, ch: Channel)
    requires Agrees(chain, ch)
    ensures Agrees(chain, LoadChannel(SaveChannel(ch)))
  {
    ItemsOfChannel(chain, ch);
    EssencesSurvive(ch);
    ChannelRoundTrip(ch);
    SameNewest(LoadChannel(SaveChannel(ch)).items, ch.items);
  }

  lemma MarkedItems(items: seq<Item>, i: nat, m: Mark)
    requires i < |items|
    ensures var items' := items[i := Marked(items[i], m)];
            Essences(items') == Essences(items) && MaxSlot(0, items') == MaxSlot(0, items) &&
            LastCurator("", items') == LastCurator("", items)
  {
    var items' := items[i := Marked(items[i], m)];
    assert Essence(Marked(items[i], m)) == Essence(items[i]);
    SameNewest(items', items);
  }

  lemma MarkedAgrees(chain: seq<Block>, ch: Channel, i: nat, m: Mark)
    requires i < |ch.items| && Agrees(chain, ch) && CountsAgree(chain, ch)
    ensures var ch' := ch.(items := ch.items[i := Marked(ch.items[i], m)]);
            Agrees(chain, ch') && CountsAgree(chain, ch')
  {
    MarkedItems(ch.items, i, m);
    hide FirstById, Decode, OpsIn, TallyOf, MaxSlot, LastCurator, Essences;
  }

  // ----- pieces of a step -----

  lemma SaveBooks(chain: seq<Block>, c: Client)
    requires WellFormed(c) && ChannelsAgree(chain, c)
    ensures Books(chain, SaveState(c))
  {
    forall k | k in c.channels ensures Agrees(chain, LoadChannel(SaveChannel(c.channels[k]))) {
      SavedAgrees(chain, c.channels[k]);
    }
  }

  lemma WithChannelBooks(chain: seq<Block>, c: Client, id: string, ch: Channel)
    requires Books(chain, c) && Agrees(chain, ch) && CountsAgree(chain, ch)
    ensures Books(chain, WithChannel(c, id, ch))
  {
  }

  // The requests of all channels but the one whose reply is being handled.
  ghost predicate OthersOk(c: Client, id: string, libs: seq<int>) {
    forall k | k in c.scanning && k != id :: OneReply(c, k) && RequestOk(c.channels[k], TheReply(c, k), libs)
  }

  lemma AskRequests(c: Client, id: string, ctx: nat, r: Reply, libs: seq<int>)
    requires Serving(c, id, ctx) && r.channelId == id && r.gateway < c.gateways
    requires OthersOk(c, id, libs) && RequestOk(c.channels[id], r, libs)
    ensures Owned(Ask(c, ctx, r)) && RequestsOk(Ask(c, ctx, r), libs)
  {
    AskOwned(c, id, ctx, r);
    var c' := Ask(c, ctx, r);
    forall k | k in c'.scanning ensures RequestOk(c'.channels[k], TheReply(c', k), libs) {
      if k != id {
        assert OneReply(c, k) && c.scanning[k] != ctx;
        assert TheReply(c', k) == TheReply(c, k);
      }
    }
  }

  lemma EndRequests(c: Client, id: string, ctx: nat, libs: seq<int>)
    requires Serving(c, id, ctx) && OthersOk(c, id, libs)
    ensures Owned(EndScan(c, id)) && RequestsOk(EndScan(c, id), libs)
  {
    EndOwned(c, id, ctx);
    var c' := EndScan(c, id);
    forall k | k in c'.scanning ensures RequestOk(c'.channels[k], TheReply(c', k), libs) {
      assert OneReply(c, k);
      assert TheReply(c', k) == TheReply(c, k);
    }
  }

  // Changes that leave scans, contexts and channels alone.
  lemma SameRequests(c: Client, c': Client, libs: seq<int>)
    requires Owned(c) && RequestsOk(c, libs) && c'.channels == c.channels && SameControl(c, c')
    ensures Owned(c') && RequestsOk(c', libs)
  {
    SameControlOwned(c, c');
    forall k | k in c'.scanning ensures RequestOk(c'.channels[k], TheReply(c', k), libs) {
      assert OneReply(c, k);
      assert TheReply(c', k) == TheReply(c, k);
    }
  }

  lemma ArriveRequests(c: Client, ctx: nat, libs: seq<int>)
    requires Owned(c) && RequestsOk(c, libs) && ctx in c.contexts && c.contexts[ctx] != []
    ensures var r := c.contexts[ctx][0]; var c' := Arrive(c, ctx);
            && Serving(c', r.channelId, ctx) && r.gateway < c.gateways && OthersOk(c', r.channelId, libs)
            && RequestOk(c'.channels[r.channelId], r, libs)
  {
    ArriveServing(c, ctx);
    var r, c' := c.contexts[ctx][0], Arrive(c, ctx);
    assert OwnedContext(c, ctx);
    assert OneReply(c, r.channelId) && TheReply(c, r.channelId) == r;
    forall k | k in c'.scanning && k != r.channelId
      ensures OneReply(c', k) && RequestOk(c'.channels[k], TheReply(c', k), libs)
    {
      assert OneReply(c, k) && c.scanning[k] != ctx;
      assert TheReply(c', k) == TheReply(c, k);
    }
  }

  lemma WithChannelServing(c: Client, id: string, ctx: nat, ch: Channel, libs: seq<int>)
    requires Serving(c, id, ctx) && OthersOk(c, id, libs) && ch.channelId == id
    ensures Serving(WithChannel(c, id, ch), id, ctx) && OthersOk(WithChannel(c, id, ch), id, libs)
  {
    var c' := WithChannel(c, id, ch);
    SameControlServing(c, c', id, ctx);
    forall k | k in c'.scanning && k != id
      ensures OneReply(c', k) && RequestOk(c'.channels[k], TheReply(c', k), libs)
    {
      assert OneReply(c, k);
      assert TheReply(c', k) == TheReply(c, k);
    }
  }

  // ----- every handler keeps the invariant -----

  ghost predicate Good(chain: seq<Block>, c: Client, libs: seq<int>) {
    && Ordered(chain) && |libs| == c.gateways && Owned(c) && Books(chain, c) && RequestsOk(c, libs)
  }

  // While the reply of channel `id` is being handled.
  ghost predicate GoodBut(chain: seq<Block>, c: Client, libs: seq<int>, id: string, ctx: nat) {
    && Ordered(chain) && |libs| == c.gateways && Serving(c, id, ctx) && Books(chain, c) && OthersOk(c, id, libs)
  }

  lemma ServedChannel(chain: seq<Block>, c: Client, libs: seq<int>, id: string, ctx: nat)
    requires GoodBut(chain, c, libs, id, ctx)
    ensures Ordered(chain) && |libs| == c.gateways
    ensures id in c.channels && c.channels[id].channelId == id
    ensures Agrees(chain, c.channels[id]) && CountsAgree(chain, c.channels[id])
    ensures 0 <= c.channels[id].cursor && 0 <= NextSlot(c.channels[id])
  {
  }

  lemma AskGood(chain: seq<Block>, c: Client, libs: seq<int>, id: string, ctx: nat, r: Reply)
    requires GoodBut(chain, c, libs, id, ctx) && r.channelId == id && r.gateway < c.gateways
    requires RequestOk(c.channels[id], r, libs)
    ensures Good(chain, Ask(c, ctx, r), libs)
  {
    hide Agrees, CountsAgree;
    AskRequests(c, id, ctx, r, libs);
  }

  lemma PutGoodBut(chain: seq<Block>, c: Client, libs: seq<int>, id: string, ctx: nat, ch: Channel)
    requires GoodBut(chain, c, libs, id, ctx) && ch.channelId == id && Agrees(chain, ch) && CountsAgree(chain, ch)
    ensures GoodBut(chain, WithChannel(c, id, ch), libs, id, ctx)
  {
    hide Agrees, CountsAgree;
    WithChannelServing(c, id, ctx, ch, libs);
  }

  lemma SaveGood(chain: seq<Block>, c: Client, libs: seq<int>)
    requires Good(chain, c, libs)
    ensures Good(chain, SaveState(c), libs)
  {
    SaveBooks(chain, c);
    SameRequests(c, SaveState(c), libs);
  }

  lemma EmitGood(chain: seq<Block>, c: Client, libs: seq<int>, s: Signal)
    requires Good(chain, c, libs)
    ensures Good(chain, Emit(c, s), libs)
  {
    SameRequests(c, Emit(c, s), libs);
  }

  lemma FailOverGood(chain: seq<Block>, c: Client, libs: seq<int>)
    requires Good(chain, c, libs)
    ensures Good(chain, FailOver(c), libs)
  {
    SameRequests(c, FailOver(c), libs);
  }

  lemma EndGood(chain: seq<Block>, c: Client, libs: seq<int>, id: string, ctx: nat)
    requires GoodBut(chain, c, libs, id, ctx)
    ensures Good(chain, EndScan(c, id), libs)
  {
    EndRequests(c, id, ctx, libs);
  }

  lemma PageFailedGood(chain: seq<Block>, c: Client, libs: seq<int>, id: string, ctx: nat)
    requires GoodBut(chain, c, libs, id, ctx)
    ensures Good(chain, PageFailed(c, id), libs)
  {
    EndGood(chain, c, libs, id, ctx);
    SaveGood(chain, EndScan(c, id), libs);
    FailOverGood(chain, SaveState(EndScan(c, id)), libs);
    EmitGood(chain, FailOver(SaveState(EndScan(c, id))), libs, ScanFinished(id, false));
  }

  lemma ScanDoneGood(chain: seq<Block>, c: Client, libs: seq<int>, id: string, ctx: nat, synced: bool)
    requires GoodBut(chain, c, libs, id, ctx)
    ensures Good(chain, Emit(SaveState(EndScan(c, id)), ScanFinished(id, synced)), libs)
  {
    EndGood(chain, c, libs, id, ctx);
    SaveGood(chain, EndScan(c, id), libs);
    EmitGood(chain, SaveState(EndScan(c, id)), libs, ScanFinished(id, synced));
  }

  lemma FieldsDoNotMatter(chain: seq<Block>, ch: Channel, lib: int, synced: bool)
    requires Agrees(chain, ch) && CountsAgree(chain, ch)
    ensures var ch' := ch.(lastLibSlot := lib); Agrees(chain, ch') && CountsAgree(chain, ch')
    ensures var ch' := ch.(lastLibSlot := lib, synced := synced); Agrees(chain, ch') && CountsAgree(chain, ch')
  {
    hide FirstById, Decode, OpsIn, TallyOf, MaxSlot, LastCurator, Essences;
  }

  // The channel a finished or continuing scan leaves behind.
  lemma LibSlotNoted(chain: seq<Block>, c: Client, libs: seq<int>, id: string, ctx: nat, ch: Channel)
    requires GoodBut(chain, c, libs, id, ctx)
    requires ch == c.channels[id].(lastLibSlot := ch.lastLibSlot, synced := ch.synced)
    ensures GoodBut(chain, WithChannel(c, id, ch), libs, id, ctx)
  {
    hide Good, GoodBut, Agrees, CountsAgree;
    ServedChannel(chain, c, libs, id, ctx);
    FieldsDoNotMatter(chain, c.channels[id], ch.lastLibSlot, ch.synced);
    PutGoodBut(chain, c, libs, id, ctx, ch);
  }

  ghost predicate ReadyForPage(c: Client, libs: seq<int>, id: string, gateway: nat, lib: int, pagesLeft: int)
    requires id in c.channels
  {
    var ch := c.channels[id];
    && gateway < c.gateways && gateway < |libs| && 0 < lib <= libs[gateway]
    && pagesLeft + ch.lastScan.pages == MAX_PAGES
    && (NextSlot(ch) <= lib ==> ch.lastScan.scannedSlots == PAGE_SLOTS * ch.lastScan.pages)
  }

  lemma NextPageEnds(chain: seq<Block>, c: Client, libs: seq<int>, id: string, ctx: nat, gateway: nat, lib: int, pagesLeft: int)
    requires GoodBut(chain, c, libs, id, ctx)
    requires NextSlot(c.channels[id]) > lib || pagesLeft <= 0
    ensures Good(chain, NextPage(c, ctx, id, gateway, lib, pagesLeft), libs)
  {
    hide Good, GoodBut, Agrees, CountsAgree, EndScan, SaveState, Emit;
    ServedChannel(chain, c, libs, id, ctx);
    var synced := NextSlot(c.channels[id]) > lib;
    var done := c.channels[id].(lastLibSlot := lib, synced := synced);
    LibSlotNoted(chain, c, libs, id, ctx, done);
    ScanDoneGood(chain, WithChannel(c, id, done), libs, id, ctx, synced);
    assert NextPage(c, ctx, id, gateway, lib, pagesLeft)
        == Emit(SaveState(EndScan(WithChannel(c, id, done), id)), ScanFinished(id, synced));
  }

  lemma NextPageAsks(chain: seq<Block>, c: Client, libs: seq<int>, id: string, ctx: nat, gateway: nat, lib: int, pagesLeft: int)
    requires GoodBut(chain, c, libs, id, ctx) && ReadyForPage(c, libs, id, gateway, lib, pagesLeft)
    requires NextSlot(c.channels[id]) <= lib && pagesLeft > 0
    ensures Good(chain, NextPage(c, ctx, id, gateway, lib, pagesLeft), libs)
  {
    hide Good, GoodBut, Agrees, CountsAgree, Ask;
    ServedChannel(chain, c, libs, id, ctx);
    var ch := c.channels[id].(lastLibSlot := lib);
    var from := NextSlot(ch);
    var r := Reply(id, gateway, Page(lib, pagesLeft, from, Min(from + PAGE_SLOTS - 1, lib)));
    LibSlotNoted(chain, c, libs, id, ctx, ch);
    var c' := WithChannel(c, id, ch);
    assert RequestOk(ch, r, libs);
    AskGood(chain, c', libs, id, ctx, r);
  }

  lemma NextPageGood(chain: seq<Block>, c: Client, libs: seq<int>, id: string, ctx: nat, gateway: nat, lib: int, pagesLeft: int)
    requires GoodBut(chain, c, libs, id, ctx) && ReadyForPage(c, libs, id, gateway, lib, pagesLeft)
    ensures Good(chain, NextPage(c, ctx, id, gateway, lib, pagesLeft), libs)
  {
    hide Good, GoodBut, Agrees, CountsAgree, NextPage;
    ServedChannel(chain, c, libs, id, ctx);
    if NextSlot(c.channels[id]) > lib || pagesLeft <= 0 {
      NextPageEnds(chain, c, libs, id, ctx, gateway, lib, pagesLeft);
    } else {
      NextPageAsks(chain, c, libs, id, ctx, gateway, lib, pagesLeft);
    }
  }

  lemma EmitGoodBut(chain: seq<Block>, c: Client, libs: seq<int>, id: string, ctx: nat, s: Signal)
    requires GoodBut(chain, c, libs, id, ctx)
    ensures GoodBut(chain, Emit(c, s), libs, id, ctx)
  {
    hide Agrees, CountsAgree;
    var c' := Emit(c, s);
    SameControlServing(c, c', id, ctx);
    forall k | k in c'.scanning && k != id
      ensures OneReply(c', k) && RequestOk(c'.channels[k], TheReply(c', k), libs)
    {
      assert OneReply(c, k);
      assert TheReply(c', k) == TheReply(c, k);
    }
  }

  lemma AgreesBasics(chain: seq<Block>, ch: Channel)
    requires Agrees(chain, ch)
    ensures 0 <= ch.startSlot && 0 <= ch.cursor && 0 <= NextSlot(ch)
  {
  }

  lemma PageRecord(chain: seq<Block>, ch: Channel, r: Reply, libs: seq<int>)
    requires Ordered(chain) && Agrees(chain, ch) && CountsAgree(chain, ch)
    requires r.request.Page? && RequestOk(ch, r, libs)
    ensures var req := r.request; var blocks := Slice(chain, req.from, req.to + 1);
            var ch' := MergePage(ch, Found(ch, blocks, req.lib), PageStats(ch, blocks, req.lib), req.from, req.to);
            ch'.channelId == ch.channelId && Agrees(chain, ch') && CountsAgree(chain, ch')
  {
    hide Agrees, CountsAgree, Slice, Matches, Inscribed, TallyOf, Merge;
    AgreesBasics(chain, ch);
    PageOfChain(chain, ch, r.request.lib, r.request.to);
  }

  lemma WithPageGood(chain: seq<Block>, c: Client, libs: seq<int>, ctx: nat, r: Reply)
    requires GoodBut(chain, c, libs, r.channelId, ctx) && r.request.Page?
    requires RequestOk(c.channels[r.channelId], r, libs)
    ensures var req := r.request;
            GoodBut(chain, WithPage(c, r, Slice(chain, req.from, req.to + 1)), libs, r.channelId, ctx)
  {
    hide Good, GoodBut, Agrees, CountsAgree, Slice, Matches, Inscribed, TallyOf, Merge, MergePage;
    ServedChannel(chain, c, libs, r.channelId, ctx);
    var id, req := r.channelId, r.request;
    var ch := c.channels[id];
    var blocks := Slice(chain, req.from, req.to + 1);
    PageRecord(chain, ch, r, libs);
    var found := Found(ch, blocks, req.lib);
    var ch' := MergePage(ch, found, PageStats(ch, blocks, req.lib), req.from, req.to);
    PutGoodBut(chain, c, libs, id, ctx, ch');
    EmitGoodBut(chain, WithChannel(c, id, ch'), libs, id, ctx, ItemsDiscovered(id, Ids(Added(ch.items, found))));
  }

  // A page moves the scan on by whole pages until it meets the finalized end.
  lemma PageAdvances(ch: Channel, found: seq<Item>, page: ScanStats, r: Reply, libs: seq<int>)
    requires r.request.Page? && RequestOk(ch, r, libs) && 0 <= ch.cursor && 0 <= NextSlot(ch)
    ensures var req := r.request; var ch' := MergePage(ch, found, page, req.from, req.to);
            && ch'.lastScan.pages == ch.lastScan.pages + 1
            && NextSlot(ch') == req.to + 1
            && (NextSlot(ch') <= req.lib ==> ch'.lastScan.scannedSlots == PAGE_SLOTS * ch'.lastScan.pages)
  {
    var req := r.request;
    assert 0 < req.to || ch.cursor == 0;
  }

  lemma AfterPage(c: Client, r: Reply, blocks: seq<Block>, libs: seq<int>)
    requires r.channelId in c.channels && r.request.Page? && RequestOk(c.channels[r.channelId], r, libs)
    requires 0 <= c.channels[r.channelId].cursor && 0 <= NextSlot(c.channels[r.channelId]) && |libs| == c.gateways
    ensures var c' := WithPage(c, r, blocks);
            r.channelId in c'.channels && ReadyForPage(c', libs, r.channelId, r.gateway, r.request.lib, r.request.pagesLeft - 1)
  {
    hide Slice, Matches, Inscribed, TallyOf, Merge;
    var ch := c.channels[r.channelId];
    PageAdvances(ch, Found(ch, blocks, r.request.lib), PageStats(ch, blocks, r.request.lib), r, libs);
  }

  lemma PageServedGood(chain: seq<Block>, c: Client, libs: seq<int>, ctx: nat, r: Reply)
    requires GoodBut(chain, c, libs, r.channelId, ctx) && r.request.Page? && RequestOk(c.channels[r.channelId], r, libs)
    ensures Good(chain, OnPage(c, ctx, r, Body(Slice(chain, r.request.from, r.request.to + 1))), libs)
  {
    hide Good, GoodBut, Agrees, CountsAgree, Slice, Matches, Inscribed, TallyOf, Merge, NextPage, WithPage, ReadyForPage;
    ServedChannel(chain, c, libs, r.channelId, ctx);
    var id, req := r.channelId, r.request;
    var ch := c.channels[id];
    var blocks := Slice(chain, req.from, req.to + 1);
    WithPageGood(chain, c, libs, ctx, r);
    AfterPage(c, r, blocks, libs);
    var c' := WithPage(c, r, blocks);
    NextPageGood(chain, c', libs, id, ctx, r.gateway, req.lib, req.pagesLeft - 1);
  }

  lemma OversizedAgrees(chain: seq<Block>, ch: Channel)
    requires Agrees(chain, ch) && CountsAgree(chain, ch)
    ensures Agrees(chain, CountOversized(ch)) && CountsAgree(chain, CountOversized(ch))
  {
    hide FirstById, Decode, OpsIn, TallyOf, MaxSlot, LastCurator, Essences;
  }

  lemma PageTooLargeGood(chain: seq<Block>, c: Client, libs: seq<int>, id: string, ctx: nat)
    requires GoodBut(chain, c, libs, id, ctx)
    ensures Good(chain, PageFailed(WithChannel(c, id, CountOversized(c.channels[id])), id), libs)
  {
    hide Good, GoodBut, Agrees, CountsAgree, PageFailed;
    ServedChannel(chain, c, libs, id, ctx);
    OversizedAgrees(chain, c.channels[id]);
    PutGoodBut(chain, c, libs, id, ctx, CountOversized(c.channels[id]));
    PageFailedGood(chain, WithChannel(c, id, CountOversized(c.channels[id])), libs, id, ctx);
  }

  lemma OnPageGood(chain: seq<Block>, c: Client, libs: seq<int>, ctx: nat, r: Reply, body: PageBody)
    requires GoodBut(chain, c, libs, r.channelId, ctx) && r.request.Page? && RequestOk(c.channels[r.channelId], r, libs)
    requires body.Body? ==> body.blocks == Slice(chain, r.request.from, Min(r.request.to, libs[r.gateway]) + 1)
    ensures Good(chain, OnPage(c, ctx, r, body), libs)
  {
    hide Good, GoodBut, Agrees, CountsAgree, NextPage, PageFailed, WithPage, Slice;
    ServedChannel(chain, c, libs, r.channelId, ctx);
    match body
    case Unreachable =>
      PageFailedGood(chain, c, libs, r.channelId, ctx);
    case TooLarge =>
      PageTooLargeGood(chain, c, libs, r.channelId, ctx);
    case Body(blocks) =>
      assert Min(r.request.to, libs[r.gateway]) == r.request.to;
      PageServedGood(chain, c, libs, ctx, r);
  }

  lemma OnInfoGood(chain: seq<Block>, c: Client, libs: seq<int>, ctx: nat, r: Reply, lib: Option<int>)
    requires GoodBut(chain, c, libs, r.channelId, ctx) && r.request.Info?
    requires r.gateway < |libs| && RequestOk(c.channels[r.channelId], r, libs)
    requires lib.Some? ==> lib.value == libs[r.gateway]
    ensures Good(chain, OnInfo(c, ctx, r, lib), libs)
  {
    hide Good, GoodBut, Agrees, CountsAgree, NextPage, EndScan, FailOver, Emit;
    ServedChannel(chain, c, libs, r.channelId, ctx);
    var id := r.channelId;
    if lib.None? || lib.value <= 0 {
      EndGood(chain, c, libs, id, ctx);
      FailOverGood(chain, EndScan(c, id), libs);
      EmitGood(chain, FailOver(EndScan(c, id)), libs, ScanFinished(id, false));
    } else {
      NextPageGood(chain, c, libs, id, ctx, r.gateway, lib.value, MAX_PAGES);
    }
  }

  lemma StartSlotAgrees(chain: seq<Block>, ch: Channel, slot: int)
    requires Agrees(chain, ch) && ch.startSlot == 0 && ch.cursor == 0 && ch.lastScan == NO_STATS && slot > 0
    ensures var ch' := ch.(startSlot := slot); Agrees(chain, ch') && CountsAgree(chain, ch')
  {
    var ch' := ch.(startSlot := slot);
    SliceEmpty(chain, 0);
    SliceEmpty(chain, slot);
    assert Decode(chain, ch.channelId, 0, 0) == [] == Decode(chain, ch.channelId, slot, slot);
    FreshCounts(chain, ch');
  }

  lemma OnExplorerBlockGood(chain: seq<Block>, c: Client, libs: seq<int>, ctx: nat, r: Reply, slot: Option<int>)
    requires GoodBut(chain, c, libs, r.channelId, ctx) && r.request.ExplorerBlock?
    requires r.gateway < |libs| && RequestOk(c.channels[r.channelId], r, libs)
    ensures Good(chain, OnExplorerBlock(c, ctx, r, slot), libs)
  {
    hide Agrees, CountsAgree;
    var id := r.channelId;
    var next := r.(request := Request.Info);
    if slot.Some? && slot.value > 0 {
      var ch' := c.channels[id].(startSlot := slot.value);
      StartSlotAgrees(chain, c.channels[id], slot.value);
      PutGoodBut(chain, c, libs, id, ctx, ch');
      var put := WithChannel(c, id, ch');
      SaveBooks(chain, put);
      SameControlServing(put, SaveState(put), id, ctx);
      OthersSaved(put, id, libs);
      AskGood(chain, SaveState(put), libs, id, ctx, next);
    } else {
      AskGood(chain, c, libs, id, ctx, next);
    }
  }

  lemma OthersSaved(c: Client, id: string, libs: seq<int>)
    requires OthersOk(c, id, libs)
    ensures OthersOk(SaveState(c), id, libs)
  {
    var c' := SaveState(c);
    forall k | k in c'.scanning && k != id
      ensures OneReply(c', k) && RequestOk(c'.channels[k], TheReply(c', k), libs)
    {
      assert OneReply(c, k);
      assert TheReply(c', k) == TheReply(c, k);
    }
  }

  ghost predicate HonestAnswer(chain: seq<Block>, r: Reply, a: Answer, libs: seq<int>) {
    && (a.LibSlot? && a.lib.Some? && r.gateway < |libs| ==> a.lib.value == libs[r.gateway])
    && (a.Blocks? && a.body.Body? && r.request.Page? && r.gateway < |libs| ==>
          a.body.blocks == Slice(chain, r.request.from, Min(r.request.to, libs[r.gateway]) + 1))
  }

  lemma ArriveGoodBut(chain: seq<Block>, c: Client, libs: seq<int>, ctx: nat)
    requires Good(chain, c, libs) && ctx in c.contexts && c.contexts[ctx] != []
    ensures var r, c' := c.contexts[ctx][0], Arrive(c, ctx);
            && GoodBut(chain, c', libs, r.channelId, ctx) && r.gateway < c'.gateways == |libs|
            && r.channelId in c'.channels && RequestOk(c'.channels[r.channelId], r, libs)
  {
    hide Agrees, CountsAgree;
    ArriveRequests(c, ctx, libs);
  }

  lemma DeliverGood(chain: seq<Block>, c: Client, libs: seq<int>, ctx: nat, a: Answer)
    requires Good(chain, c, libs)
    requires ctx in c.contexts && c.contexts[ctx] != [] ==> HonestAnswer(chain, c.contexts[ctx][0], a, libs)
    ensures Good(chain, Deliver(c, ctx, a), libs)
  {
    hide Good, GoodBut, OnInfo, OnPage, OnExplorerBlock, Arrive;
    if ctx in c.contexts && c.contexts[ctx] != [] && Fits(c.contexts[ctx][0].request, a)
       && c.contexts[ctx][0].channelId in c.channels {
      ArriveGoodBut(chain, c, libs, ctx);
      var r, c' := c.contexts[ctx][0], Arrive(c, ctx);
      match a
      case FirstBlock(known) =>
        AskGood(chain, c', libs, r.channelId, ctx, r.(request := if known then ExplorerBlock else Request.Info));
      case BlockSlot(slot) =>
        OnExplorerBlockGood(chain, c', libs, ctx, r, slot);
      case LibSlot(lib) =>
        OnInfoGood(chain, c', libs, ctx, r, lib);
      case Blocks(body) =>
        OnPageGood(chain, c', libs, ctx, r, body);
    }
  }
}
