/** The scan machine of the client as functions on its state (src/lez_client.cpp, followChannel through
    scanNextPage). One function per handler; the class LezClient refines them. A scan owns a context; a
    context holds the replies outstanding for it; deleting the context cancels them. */
module ScanSteps {
  import opened Basics
  import opened Inscriptions
  import opened Channels
  import opened Persistence

  const PAGE_SLOTS := 2000
  const MAX_PAGES := 100

  datatype Request = ExplorerChannel | ExplorerBlock | Info | Page(lib: int, pagesLeft: int, from: int, to: int)

  // An outstanding reply, with what its handler captured.
  datatype Reply = Reply(channelId: string, gateway: nat, request: Request)

  datatype PageBody = Unreachable | TooLarge | Body(blocks: seq<Block>)

  datatype Answer =
    | FirstBlock(known: bool)
    | BlockSlot(slot: Option<int>)
    | LibSlot(lib: Option<int>)
    | Blocks(body: PageBody)

  datatype Health = Offline | Ready | Degraded

  datatype Signal = ScanFinished(channelId: string, reachedLib: bool) | ItemsDiscovered(channelId: string, ids: seq<string>)

  datatype Client = Client(
    gateways: nat, explorer: bool, active: nat, health: Health,
    channels: map<string, Channel>, scanning: map<string, nat>, contexts: map<nat, seq<Reply>>, nextContext: nat,
    signals: seq<Signal>, disk: Option<Snapshot>)

  function NewClient(gateways: nat, explorer: bool): Client {
    Client(gateways, explorer, 0, Offline, map[], map[], map[], 0, [], None)
  }

  // ----- small state changes -----

  function SaveState(c: Client): Client {
    c.(disk := Some(SaveAll(c.channels)))
  }

  function FailOver(c: Client): Client {
    c.(health := Offline, active := if c.gateways > 1 then (c.active + 1) % c.gateways else c.active)
  }

  function Emit(c: Client, s: Signal): Client {
    c.(signals := c.signals + [s])
  }

  function WithChannel(c: Client, id: string, ch: Channel): Client {
    c.(channels := c.channels[id := ch])
  }

  function EndScan(c: Client, id: string): Client {
    c.(scanning := c.scanning - {id})
  }

  function Ask(c: Client, ctx: nat, r: Reply): Client {
    c.(contexts := c.contexts[ctx := (if ctx in c.contexts then c.contexts[ctx] else []) + [r]])
  }

  // ----- commands -----

  function StartScan(c: Client, id: string): Client
    requires id in c.channels
  {
    if id in c.scanning then c
    else
      var ctx := c.nextContext;
      var ch := c.channels[id];
      var begun := c.(scanning := c.scanning[id := ctx], contexts := c.contexts[ctx := []], nextContext := ctx + 1,
                      channels := c.channels[id := ch.(lastScan := NO_STATS)]);
      var first := if ch.startSlot == 0 && ch.cursor == 0 && c.explorer then ExplorerChannel else Info;
      Ask(begun, ctx, Reply(id, c.active, first))
  }

  // `id` is the channel id found in the reference, or "" when there is none.
  function Follow(c: Client, id: string, startSlot: nat): Client {
    if id == "" || id in c.channels then c
    else StartScan(SaveState(WithChannel(c, id, NewChannel(id, startSlot))), id)
  }

  function Unfollow(c: Client, id: string): Client {
    if id !in c.channels then c
    else
      var gone := if id in c.scanning then {c.scanning[id]} else {};
      SaveState(c.(channels := c.channels - {id}, scanning := c.scanning - {id}, contexts := c.contexts - gone))
  }

  function Refresh(c: Client, id: string): Client {
    if id !in c.channels || id in c.scanning then c else StartScan(c, id)
  }

  function SetName(c: Client, id: string, name: string): Client {
    if id !in c.channels then c
    else SaveState(WithChannel(c, id, c.channels[id].(name := name[..Min(|name|, 64)])))
  }

  function SetAutoPreserve(c: Client, id: string, on: bool): Client {
    if id !in c.channels then c
    else SaveState(WithChannel(c, id, c.channels[id].(autoPreserve := on)))
  }

  // What the preserve machinery writes on an item: its state, progress and stored CIDs, nothing else.
  datatype Mark = Mark(state: ItemState, progress: int, storedCids: seq<string>)

  function Marked(c: Item, m: Mark): Item {
    c.(state := m.state, progress := m.progress, storedCids := m.storedCids)
  }

  function MarkItem(c: Client, id: string, i: nat, m: Mark, save: bool): Client {
    if id !in c.channels || i >= |c.channels[id].items| then c
    else
      var ch := c.channels[id];
      var c' := WithChannel(c, id, ch.(items := ch.items[i := Marked(ch.items[i], m)]));
      if save then SaveState(c') else c'
  }

  // ----- replies -----

  // The outstanding reply of a context, taken off it.
  function Arrive(c: Client, ctx: nat): Client
    requires ctx in c.contexts && c.contexts[ctx] != []
  {
    c.(contexts := c.contexts[ctx := c.contexts[ctx][1..]])
  }

  function OnExplorerChannel(c: Client, ctx: nat, r: Reply, known: bool): Client {
    Ask(c, ctx, r.(request := if known then ExplorerBlock else Info))
  }

  function OnExplorerBlock(c: Client, ctx: nat, r: Reply, slot: Option<int>): Client {
    var c' := if slot.Some? && slot.value > 0 && r.channelId in c.channels
              then SaveState(WithChannel(c, r.channelId, c.channels[r.channelId].(startSlot := slot.value)))
              else c;
    Ask(c', ctx, r.(request := Info))
  }

  function ScanFailed(c: Client, id: string): Client {
    Emit(FailOver(EndScan(c, id)), ScanFinished(id, false))
  }

  function OnInfo(c: Client, ctx: nat, r: Reply, lib: Option<int>): Client
    requires r.channelId in c.channels
  {
    if lib.None? || lib.value <= 0 then ScanFailed(c, r.channelId)
    else NextPage(c, ctx, r.channelId, r.gateway, lib.value, MAX_PAGES)
  }

  function NextPage(c: Client, ctx: nat, id: string, gateway: nat, lib: int, pagesLeft: int): Client
    requires id in c.channels
  {
    var ch := c.channels[id].(lastLibSlot := lib);
    var from := NextSlot(ch);
    if from > lib || pagesLeft <= 0 then
      var synced := from > lib;
      var done := WithChannel(c, id, ch.(synced := synced));
      Emit(SaveState(EndScan(done, id)), ScanFinished(id, synced))
    else
      var to := Min(from + PAGE_SLOTS - 1, lib);
      Ask(WithChannel(c, id, ch), ctx, Reply(id, gateway, Page(lib, pagesLeft, from, to)))
  }

  function PageFailed(c: Client, id: string): Client {
    Emit(FailOver(SaveState(EndScan(c, id))), ScanFinished(id, false))
  }

  // The channel once the blocks of a page are merged, and the ids that were new.
  function WithPage(c: Client, r: Reply, blocks: seq<Block>): Client
    requires r.channelId in c.channels && r.request.Page?
  {
    var ch := c.channels[r.channelId];
    var found := Found(ch, blocks, r.request.lib);
    var ch' := MergePage(ch, found, PageStats(ch, blocks, r.request.lib), r.request.from, r.request.to);
    var merged := WithChannel(c, r.channelId, ch');
    var added := Added(ch.items, found);
    if added == [] then merged else Emit(merged, ItemsDiscovered(r.channelId, Ids(added)))
  }

  function CountOversized(ch: Channel): Channel {
    ch.(lastScan := ch.lastScan.(oversizedBodies := ch.lastScan.oversizedBodies + 1))
  }

  function OnPage(c: Client, ctx: nat, r: Reply, body: PageBody): Client
    requires r.channelId in c.channels && r.request.Page?
  {
    var id := r.channelId;
    match body
    case Unreachable => PageFailed(c, id)
    case TooLarge =>
      PageFailed(WithChannel(c, id, CountOversized(c.channels[id])), id)
    case Body(blocks) =>
      NextPage(WithPage(c, r, blocks), ctx, id, r.gateway, r.request.lib, r.request.pagesLeft - 1)
  }

  predicate Fits(r: Request, a: Answer) {
    match r
    case ExplorerChannel => a.FirstBlock?
    case ExplorerBlock => a.BlockSlot?
    case Info => a.LibSlot?
    case Page(_, _, _, _) => a.Blocks?
  }

  // An event of the network: the answer to the oldest reply outstanding for a context. An answer that
  // nobody waits for is no event.
  function Deliver(c: Client, ctx: nat, a: Answer): Client {
    if ctx !in c.contexts || c.contexts[ctx] == [] || !Fits(c.contexts[ctx][0].request, a)
       || c.contexts[ctx][0].channelId !in c.channels then c
    else
      var r := c.contexts[ctx][0];
      var c' := Arrive(c, ctx);
      match a
      case FirstBlock(known) => OnExplorerChannel(c', ctx, r, known)
      case BlockSlot(slot) => OnExplorerBlock(c', ctx, r, slot)
      case LibSlot(lib) => OnInfo(c', ctx, r, lib)
      case Blocks(body) => OnPage(c', ctx, r, body)
  }

  // The answer to a health poll: nothing, or whether the node calls itself online.
  function OnHealth(c: Client, online: Option<bool>): Client {
    match online
    case None => FailOver(c)
    case Some(yes) => c.(health := if yes then Ready else Degraded)
  }

  // The event loop disposes of a context whose scan has ended.
  function Reap(c: Client, ctx: nat): Client {
    if ctx in c.scanning.Values then c else c.(contexts := c.contexts - {ctx})
  }

  // The process dies and a new one loads the state file.
  function Restart(c: Client): Client {
    Client(c.gateways, c.explorer, 0, Offline, if c.disk.Some? then LoadAll(c.disk.value) else map[],
           map[], map[], c.nextContext, [], c.disk)
  }

  // ----- ownership of replies -----

  ghost predicate OneReply(c: Client, id: string) {
    && id in c.channels
    && id in c.scanning && c.scanning[id] in c.contexts
    && |c.contexts[c.scanning[id]]| == 1
    && c.contexts[c.scanning[id]][0].channelId == id
  }

  ghost predicate OwnedContext(c: Client, ctx: nat)
    requires ctx in c.contexts
  {
    && ctx < c.nextContext
    && (c.contexts[ctx] != [] ==>
          && |c.contexts[ctx]| == 1
          && c.contexts[ctx][0].gateway < c.gateways
          && c.contexts[ctx][0].channelId in c.scanning
          && c.scanning[c.contexts[ctx][0].channelId] == ctx)
  }

  ghost predicate WellFormed(c: Client) {
    && c.active < c.gateways
    && (forall k | k in c.channels :: k != "" && c.channels[k].channelId == k)
  }

  // Every scanning channel is followed and waits for exactly one reply, and every outstanding reply is
  // owned by the context registered for its channel.
  ghost predicate Owned(c: Client) {
    && WellFormed(c)
    && (forall k | k in c.scanning :: OneReply(c, k))
    && (forall x | x in c.contexts :: OwnedContext(c, x))
  }

  // The same while the reply of channel `id` is being handled.
  ghost predicate Serving(c: Client, id: string, ctx: nat) {
    && WellFormed(c)
    && id in c.channels && id in c.scanning && c.scanning[id] == ctx && ctx in c.contexts && c.contexts[ctx] == []
    && (forall k | k in c.scanning && k != id :: OneReply(c, k))
    && (forall x | x in c.contexts :: OwnedContext(c, x))
  }

  lemma AskOwned(c: Client, id: string, ctx: nat, r: Reply)
    requires Serving(c, id, ctx) && r.channelId == id && r.gateway < c.gateways
    ensures Owned(Ask(c, ctx, r))
  {
    var c' := Ask(c, ctx, r);
    assert OneReply(c', id);
    forall k | k in c'.scanning && k != id ensures OneReply(c', k) {
      assert OneReply(c, k);
      assert c.scanning[k] != ctx;
    }
    forall x | x in c'.contexts ensures OwnedContext(c', x) {
      assert x != ctx ==> OwnedContext(c, x);
      assert OwnedContext(c, ctx);
    }
  }

  lemma EndOwned(c: Client, id: string, ctx: nat)
    requires Serving(c, id, ctx)
    ensures Owned(EndScan(c, id))
  {
    var c' := EndScan(c, id);
    forall k | k in c'.scanning ensures OneReply(c', k) {
      assert OneReply(c, k);
    }
    forall x | x in c'.contexts ensures OwnedContext(c', x) {
      assert OwnedContext(c, x);
    }
  }

  // Changes that touch neither scans nor contexts nor which channels there are.
  ghost predicate SameControl(c: Client, c': Client) {
    && c'.gateways == c.gateways && c'.active < c'.gateways
    && c'.scanning == c.scanning && c'.contexts == c.contexts && c'.nextContext == c.nextContext
    && c'.channels.Keys == c.channels.Keys
    && (forall k | k in c'.channels :: c'.channels[k].channelId == c.channels[k].channelId)
  }

  lemma SameControlOwned(c: Client, c': Client)
    requires Owned(c) && SameControl(c, c')
    ensures Owned(c')
  {
    forall k | k in c'.scanning ensures OneReply(c', k) {
      assert OneReply(c, k);
    }
    forall x | x in c'.contexts ensures OwnedContext(c', x) {
      assert OwnedContext(c, x);
    }
  }

  lemma SameControlServing(c: Client, c': Client, id: string, ctx: nat)
    requires Serving(c, id, ctx) && SameControl(c, c')
    ensures Serving(c', id, ctx)
  {
    forall k | k in c'.scanning && k != id ensures OneReply(c', k) {
      assert OneReply(c, k);
    }
    forall x | x in c'.contexts ensures OwnedContext(c', x) {
      assert OwnedContext(c, x);
    }
  }

  lemma ArriveServing(c: Client, ctx: nat)
    requires Owned(c) && ctx in c.contexts && c.contexts[ctx] != []
    ensures Serving(Arrive(c, ctx), c.contexts[ctx][0].channelId, ctx)
    ensures c.contexts[ctx][0].gateway < c.gateways
  {
    var c', id := Arrive(c, ctx), c.contexts[ctx][0].channelId;
    assert OwnedContext(c, ctx);
    assert OneReply(c, id);
    forall k | k in c'.scanning && k != id ensures OneReply(c', k) {
      assert OneReply(c, k);
      assert c.scanning[k] != ctx;
    }
    forall x | x in c'.contexts ensures OwnedContext(c', x) {
      assert OwnedContext(c, x);
    }
  }

  lemma StartScanOwned(c: Client, id: string)
    requires Owned(c) && id in c.channels
    ensures Owned(StartScan(c, id))
  {
    if id !in c.scanning {
      var ctx := c.nextContext;
      var ch := c.channels[id];
      var begun := c.(scanning := c.scanning[id := ctx], contexts := c.contexts[ctx := []], nextContext := ctx + 1,
                      channels := c.channels[id := ch.(lastScan := NO_STATS)]);
      forall k | k in begun.scanning && k != id ensures OneReply(begun, k) {
        assert OneReply(c, k);
        assert OwnedContext(c, c.scanning[k]);
      }
      forall x | x in begun.contexts ensures OwnedContext(begun, x) {
        assert x != ctx ==> OwnedContext(c, x);
      }
      var first := if ch.startSlot == 0 && ch.cursor == 0 && c.explorer then ExplorerChannel else Info;
      AskOwned(begun, id, ctx, Reply(id, c.active, first));
    }
  }

  lemma FollowOwned(c: Client, id: string, startSlot: nat)
    requires Owned(c)
    ensures Owned(Follow(c, id, startSlot))
  {
    if id != "" && id !in c.channels {
      var c' := SaveState(WithChannel(c, id, NewChannel(id, startSlot)));
      forall k | k in c'.scanning ensures OneReply(c', k) {
        assert OneReply(c, k);
      }
      forall x | x in c'.contexts ensures OwnedContext(c', x) {
        assert OwnedContext(c, x);
      }
      StartScanOwned(c', id);
    }
  }

  lemma UnfollowOwned(c: Client, id: string)
    requires Owned(c)
    ensures Owned(Unfollow(c, id))
  {
    if id in c.channels {
      var c' := Unfollow(c, id);
      forall k | k in c'.scanning ensures OneReply(c', k) {
        assert OneReply(c, k);
        assert id in c.scanning ==> OneReply(c, id);
      }
      forall x | x in c'.contexts ensures OwnedContext(c', x) {
        assert OwnedContext(c, x);
      }
    }
  }

  lemma NextPageOwned(c: Client, ctx: nat, id: string, gateway: nat, lib: int, pagesLeft: int)
    requires Serving(c, id, ctx) && gateway < c.gateways
    ensures Owned(NextPage(c, ctx, id, gateway, lib, pagesLeft))
  {
    var ch := c.channels[id].(lastLibSlot := lib);
    var from := NextSlot(ch);
    if from > lib || pagesLeft <= 0 {
      var done := WithChannel(c, id, ch.(synced := from > lib));
      SameControlServing(c, done, id, ctx);
      EndOwned(done, id, ctx);
      SameControlOwned(EndScan(done, id), NextPage(c, ctx, id, gateway, lib, pagesLeft));
    } else {
      var c1 := WithChannel(c, id, ch);
      SameControlServing(c, c1, id, ctx);
      AskOwned(c1, id, ctx, Reply(id, gateway, Page(lib, pagesLeft, from, Min(from + PAGE_SLOTS - 1, lib))));
    }
  }

  lemma DeliverOwned(c: Client, ctx: nat, a: Answer)
    requires Owned(c)
    ensures Owned(Deliver(c, ctx, a))
  {
    if ctx in c.contexts && c.contexts[ctx] != [] && Fits(c.contexts[ctx][0].request, a)
       && c.contexts[ctx][0].channelId in c.channels {
      ArriveServing(c, ctx);
      var r, c' := c.contexts[ctx][0], Arrive(c, ctx);
      match a
      case FirstBlock(known) =>
        AskOwned(c', r.channelId, ctx, r.(request := if known then ExplorerBlock else Info));
      case BlockSlot(slot) =>
        OnExplorerBlockOwned(c', ctx, r, slot);
      case LibSlot(lib) =>
        OnInfoOwned(c', ctx, r, lib);
      case Blocks(body) =>
        OnPageOwned(c', ctx, r, body);
    }
  }

  lemma OnExplorerBlockOwned(c: Client, ctx: nat, r: Reply, slot: Option<int>)
    requires Serving(c, r.channelId, ctx) && r.gateway < c.gateways
    ensures Owned(OnExplorerBlock(c, ctx, r, slot))
  {
    if slot.Some? && slot.value > 0 {
      var c1 := SaveState(WithChannel(c, r.channelId, c.channels[r.channelId].(startSlot := slot.value)));
      SameControlServing(c, c1, r.channelId, ctx);
      AskOwned(c1, r.channelId, ctx, r.(request := Info));
    } else {
      AskOwned(c, r.channelId, ctx, r.(request := Info));
    }
  }

  lemma OnInfoOwned(c: Client, ctx: nat, r: Reply, lib: Option<int>)
    requires Serving(c, r.channelId, ctx) && r.gateway < c.gateways
    ensures Owned(OnInfo(c, ctx, r, lib))
  {
    if lib.None? || lib.value <= 0 {
      EndOwned(c, r.channelId, ctx);
      SameControlOwned(EndScan(c, r.channelId), ScanFailed(c, r.channelId));
    } else {
      NextPageOwned(c, ctx, r.channelId, r.gateway, lib.value, MAX_PAGES);
    }
  }

  lemma PageFailedOwned(c: Client, id: string, ctx: nat)
    requires Serving(c, id, ctx)
    ensures Owned(PageFailed(c, id))
  {
    EndOwned(c, id, ctx);
    SameControlOwned(EndScan(c, id), PageFailed(c, id));
  }

  lemma WithPageServing(c: Client, ctx: nat, r: Reply, blocks: seq<Block>)
    requires Serving(c, r.channelId, ctx) && r.request.Page?
    ensures Serving(WithPage(c, r, blocks), r.channelId, ctx) && WithPage(c, r, blocks).gateways == c.gateways
  {
    SameControlServing(c, WithPage(c, r, blocks), r.channelId, ctx);
  }

  lemma OnPageOwned(c: Client, ctx: nat, r: Reply, body: PageBody)
    requires Serving(c, r.channelId, ctx) && r.gateway < c.gateways && r.request.Page?
    ensures Owned(OnPage(c, ctx, r, body))
  {
    var id := r.channelId;
    match body
    case Unreachable =>
      PageFailedOwned(c, id, ctx);
    case TooLarge =>
      var c1 := WithChannel(c, id, CountOversized(c.channels[id]));
      SameControlServing(c, c1, id, ctx);
      PageFailedOwned(c1, id, ctx);
    case Body(blocks) =>
      var c1 := WithPage(c, r, blocks);
      WithPageServing(c, ctx, r, blocks);
      NextPageOwned(c1, ctx, id, r.gateway, r.request.lib, r.request.pagesLeft - 1);
  }

  lemma ReapOwned(c: Client, ctx: nat)
    requires Owned(c)
    ensures Owned(Reap(c, ctx))
  {
    var c' := Reap(c, ctx);
    forall k | k in c'.scanning ensures OneReply(c', k) {
      assert OneReply(c, k);
    }
    forall x | x in c'.contexts ensures OwnedContext(c', x) {
      assert OwnedContext(c, x);
    }
  }
}
