/** What the client tells its listeners and whom it asks, over whole runs: each new row is announced once, each
    scan is reported finished once, each failure moves on to the next gateway, and a fresh follow starts at the
    slot the explorer knows. */
module ScanSignals {
  import opened Basics
  import opened Inscriptions
  import opened Channels
  import opened Persistence
  import Scan = ScanSteps
  import opened ScanSteps
  import opened ScanRuns
  import opened ScanTheorems
  import opened ScanProgress
  import opened ScanPages

  // ----- what was told -----

  // The ids announced for a channel, in order, and how often its scan was reported finished.
  function Announced(signals: seq<Signal>, id: string): seq<string> {
    if signals == [] then []
    else
      var last := signals[|signals| - 1];
      Announced(signals[..|signals| - 1], id) + if last.ItemsDiscovered? && last.channelId == id then last.ids else []
  }

  function Finished(signals: seq<Signal>, id: string): nat {
    if signals == [] then 0
    else
      var last := signals[|signals| - 1];
      Finished(signals[..|signals| - 1], id) + Bit(last.ScanFinished? && last.channelId == id)
  }

  lemma ToldOneMore(c: Client, g: Signal, id: string)
    ensures Announced(Emit(c, g).signals, id) ==
            Announced(c.signals, id) + if g.ItemsDiscovered? && g.channelId == id then g.ids else []
    ensures Finished(Emit(c, g).signals, id) == Finished(c.signals, id) + Bit(g.ScanFinished? && g.channelId == id)
  {
    assert (c.signals + [g])[..|c.signals|] == c.signals;
  }

  // The rows a step added to the channel.
  function NewRows(c: Client, c': Client, id: string): seq<Item>
    requires id in c.channels && id in c'.channels && |c.channels[id].items| <= |c'.channels[id].items|
  {
    c'.channels[id].items[|c.channels[id].items|..]
  }

  predicate SameIdsBefore(c: Client, c': Client, id: string) {
    && id in c.channels && id in c'.channels && |c.channels[id].items| <= |c'.channels[id].items|
    && Ids(c'.channels[id].items) == Ids(c.channels[id].items) + Ids(NewRows(c, c', id))
  }

  // A step announces the rows it added, and reports a scan finished when it ends one.
  predicate TellsAll(c: Client, c': Client, id: string, begun: bool) {
    && SameIdsBefore(c, c', id)
    && Announced(c'.signals, id) == Announced(c.signals, id) + Ids(NewRows(c, c', id))
    && Finished(c'.signals, id) + Bit(id in c'.scanning) == Finished(c.signals, id) + Bit(id in c.scanning) + Bit(begun)
  }

  lemma SameRowsTold(c: Client, c': Client, id: string, begun: bool)
    requires id in c.channels && id in c'.channels && Ids(c'.channels[id].items) == Ids(c.channels[id].items)
    requires Announced(c'.signals, id) == Announced(c.signals, id)
    requires Finished(c'.signals, id) + Bit(id in c'.scanning) == Finished(c.signals, id) + Bit(id in c.scanning) + Bit(begun)
    ensures TellsAll(c, c', id, begun)
  {
    assert |Ids(c.channels[id].items)| == |c.channels[id].items| && |Ids(c'.channels[id].items)| == |c'.channels[id].items|;
    assert NewRows(c, c', id) == [] && Ids([]) == [];
    assert Announced(c.signals, id) + [] == Announced(c.signals, id);
    assert Ids(c.channels[id].items) + [] == Ids(c.channels[id].items);
  }

  // ----- replies -----

  lemma NextPageTells(c: Client, ctx: nat, x: string, gateway: nat, lib: int, pagesLeft: int, id: string)
    requires x in c.channels && x in c.scanning && id in c.channels
    ensures var r := NextPage(c, ctx, x, gateway, lib, pagesLeft);
            && id in r.channels && r.channels[id].items == c.channels[id].items
            && Announced(r.signals, id) == Announced(c.signals, id)
            && Finished(r.signals, id) + Bit(id in r.scanning) == Finished(c.signals, id) + Bit(id in c.scanning)
  {
    hide Announced, Finished, SaveAll;
    var ch := c.channels[x].(lastLibSlot := lib);
    var done := SaveState(EndScan(WithChannel(c, x, ch.(synced := NextSlot(ch) > lib)), x));
    ToldOneMore(done, ScanFinished(x, NextSlot(ch) > lib), id);
  }

  lemma FailureTells(c: Client, c': Client, x: string, id: string)
    requires x in c.channels && x in c.scanning && id in c.channels
    requires c' == ScanFailed(c, x) || c' == PageFailed(c, x)
    ensures c'.channels == c.channels && Announced(c'.signals, id) == Announced(c.signals, id)
    ensures Finished(c'.signals, id) + Bit(id in c'.scanning) == Finished(c.signals, id) + Bit(id in c.scanning)
  {
    hide Announced, Finished, SaveAll;
    ToldOneMore(c, ScanFinished(x, false), id);
  }

  lemma IdsAppend(a: seq<Item>, b: seq<Item>)
    ensures Ids(a + b) == Ids(a) + Ids(b)
  {
  }

  lemma PageAnnounces(c: Client, r: Reply, blocks: seq<Block>, id: string)
    requires r.channelId in c.channels && r.request.Page? && id in c.channels
    ensures var c' := WithPage(c, r, blocks);
            && SameIdsBefore(c, c', id) && c'.scanning == c.scanning && r.channelId in c'.channels
            && Announced(c'.signals, id) == Announced(c.signals, id) + Ids(NewRows(c, c', id))
            && Finished(c'.signals, id) == Finished(c.signals, id)
  {
    hide Announced, Finished, Merge, MaxSlot, LastCurator, Found, PageStats;
    var ch := c.channels[r.channelId];
    var found := Found(ch, blocks, r.request.lib);
    var c' := WithPage(c, r, blocks);
    MergeSplits(ch.items, found);
    IdsAppend(ch.items, Added(ch.items, found));
    assert Ids([]) == [];
    assert Announced(c.signals, id) + [] == Announced(c.signals, id);
    ToldOneMore(c, ItemsDiscovered(r.channelId, Ids(Added(ch.items, found))), id);
    if id == r.channelId {
      assert c'.channels[id].items == ch.items + Added(ch.items, found);
    } else {
      assert NewRows(c, c', id) == [];
      assert Ids(c.channels[id].items) + [] == Ids(c.channels[id].items);
    }
  }

  lemma PageTells(c: Client, ctx: nat, r: Reply, body: PageBody, id: string)
    requires r.channelId in c.channels && r.channelId in c.scanning && r.request.Page? && id in c.channels
    ensures TellsAll(c, OnPage(c, ctx, r, body), id, false)
  {
    hide Announced, Finished, NextPage, WithPage, Ids, PageFailed;
    var c' := OnPage(c, ctx, r, body);
    match body
    case Unreachable =>
      FailureTells(c, c', r.channelId, id);
      SameRowsTold(c, c', id, false);
    case TooLarge =>
      var c1 := WithChannel(c, r.channelId, CountOversized(c.channels[r.channelId]));
      FailureTells(c1, c', r.channelId, id);
      SameRowsTold(c, c', id, false);
    case Body(blocks) =>
      var c1 := WithPage(c, r, blocks);
      PageAnnounces(c, r, blocks, id);
      NextPageTells(c1, ctx, r.channelId, r.gateway, r.request.lib, r.request.pagesLeft - 1, id);
      assert NewRows(c, c', id) == NewRows(c, c1, id);
  }

  lemma InfoTells(c: Client, ctx: nat, r: Reply, lib: Option<int>, id: string)
    requires r.channelId in c.channels && r.channelId in c.scanning && id in c.channels
    ensures TellsAll(c, OnInfo(c, ctx, r, lib), id, false)
  {
    hide Announced, Finished, NextPage, Ids, ScanFailed;
    var c' := OnInfo(c, ctx, r, lib);
    if lib.None? || lib.value <= 0 {
      FailureTells(c, c', r.channelId, id);
    } else {
      NextPageTells(c, ctx, r.channelId, r.gateway, lib.value, MAX_PAGES, id);
    }
    SameRowsTold(c, c', id, false);
  }

  lemma DeliverTells(c: Client, ctx: nat, a: Answer, id: string)
    requires Owned(c) && id in c.channels
    ensures TellsAll(c, Deliver(c, ctx, a), id, false)
  {
    hide Announced, Finished, Ids, OnInfo, OnPage, SaveAll;
    var c' := Deliver(c, ctx, a);
    if ctx in c.contexts && c.contexts[ctx] != [] && Fits(c.contexts[ctx][0].request, a)
       && c.contexts[ctx][0].channelId in c.channels {
      var r, c1 := c.contexts[ctx][0], Arrive(c, ctx);
      ArriveServing(c, ctx);
      match a
      case FirstBlock(known) => SameRowsTold(c, c', id, false);
      case BlockSlot(slot) => SameRowsTold(c, c', id, false);
      case LibSlot(lib) =>
        InfoTells(c1, ctx, r, lib, id);
        SameTold(c, c1, c', id);
      case Blocks(body) =>
        PageTells(c1, ctx, r, body, id);
        SameTold(c, c1, c', id);
    } else {
      SameRowsTold(c, c', id, false);
    }
  }

  lemma SameTold(c: Client, c1: Client, c': Client, id: string)
    requires c1 == c.(contexts := c1.contexts) && TellsAll(c1, c', id, false)
    ensures TellsAll(c, c', id, false)
  {
    hide Announced, Finished, Ids;
  }

  // ----- every step -----

  // The event starts a scan of the channel.
  predicate Begins(c: Client, e: Event, id: string) {
    id in c.channels && id !in c.scanning && e == Refresh(id)
  }

  lemma QuietTells(c: Client, c': Client, id: string, begun: bool)
    requires id in c.channels && id in c'.channels && Ids(c'.channels[id].items) == Ids(c.channels[id].items)
    requires c'.signals == c.signals && (id in c'.scanning <==> id in c.scanning || begun) && (begun ==> id !in c.scanning)
    ensures TellsAll(c, c', id, begun)
  {
    hide Ids;
    SameRowsTold(c, c', id, begun);
  }

  lemma SettingTells(chain: seq<Block>, w: World, e: Event, id: string)
    requires id in w.client.channels && (e.SetName? || e.SetAuto? || (e.Unfollow? && e.id != id))
    ensures TellsAll(w.client, ClientStep(chain, w, e), id, false)
  {
    hide TellsAll, SaveAll, Ids;
    QuietTells(w.client, ClientStep(chain, w, e), id, false);
  }

  lemma MarkTells(c: Client, x: string, i: nat, m: Mark, save: bool, id: string)
    requires id in c.channels
    ensures TellsAll(c, Scan.MarkItem(c, x, i, m, save), id, false)
  {
    hide TellsAll, SaveAll;
    var c' := Scan.MarkItem(c, x, i, m, save);
    assert Ids(c'.channels[id].items) == Ids(c.channels[id].items);
    hide Ids;
    QuietTells(c, c', id, false);
  }

  lemma CommandTells(chain: seq<Block>, w: World, e: Event, id: string)
    requires Owned(w.client) && id in w.client.channels && e != Restart && e != Unfollow(id)
    requires !(e.ExplorerChannelReply? || e.ExplorerBlockReply? || e.InfoReply? || e.PageReply?)
    ensures TellsAll(w.client, ClientStep(chain, w, e), id, Begins(w.client, e, id))
  {
    hide TellsAll, SaveAll, Ids, Owned;
    if e.MarkItem? {
      MarkTells(w.client, e.id, e.index, e.mark, e.save, id);
    } else if e.SetName? || e.SetAuto? || e.Unfollow? {
      SettingTells(chain, w, e, id);
    } else {
      QuietTells(w.client, ClientStep(chain, w, e), id, Begins(w.client, e, id));
    }
  }

  lemma StepTells(chain: seq<Block>, w: World, e: Event, id: string)
    requires Owned(w.client) && id in w.client.channels && e != Restart && e != Unfollow(id)
    ensures TellsAll(w.client, Step(chain, w, e).client, id, Begins(w.client, e, id))
  {
    hide TellsAll, Deliver, Owned, LibAnswer, PageAnswer;
    var c := w.client;
    match e
    case ExplorerChannelReply(ctx, known) => DeliverTells(c, ctx, FirstBlock(known), id);
    case ExplorerBlockReply(ctx, slot) => DeliverTells(c, ctx, BlockSlot(slot), id);
    case InfoReply(ctx, ok) => DeliverTells(c, ctx, LibSlot(LibAnswer(w, ctx, ok)), id);
    case PageReply(ctx, outcome) => DeliverTells(c, ctx, Blocks(PageAnswer(chain, w, ctx, outcome)), id);
    case _ => CommandTells(chain, w, e, id);
  }

  // ----- every run -----

  function Begun(chain: seq<Block>, w: World, events: seq<Event>, id: string): nat
    decreases |events|
  {
    if events == [] then 0
    else Bit(Begins(w.client, events[0], id)) + Begun(chain, Step(chain, w, events[0]), events[1..], id)
  }

  // While a channel stays followed, its listeners are told of each row exactly once, in the order of the rows, and
  // of the end of each scan exactly once: the scans begun are those reported finished and the one under way.
  lemma {:induction false} EverythingIsTold(chain: seq<Block>, w: World, events: seq<Event>, id: string)
    requires Faithful(chain, w) && id in w.client.channels && Uncut(events, id)
    ensures var c, c' := w.client, Run(chain, w, events).client;
            && SameIdsBefore(c, c', id)
            && Announced(c'.signals, id) == Announced(c.signals, id) + Ids(NewRows(c, c', id))
            && Finished(c'.signals, id) + Bit(id in c'.scanning) ==
               Finished(c.signals, id) + Bit(id in c.scanning) + Begun(chain, w, events, id)
    decreases |events|
  {
    hide Faithful, Step, Announced, Finished, Begins, Ids;
    var c := w.client;
    if events == [] {
      SameRowsTold(c, c, id, false);
    } else {
      var w1 := Step(chain, w, events[0]);
      assert events[0] in events && forall e | e in events[1..] :: e in events;
      IsOwned(chain, w);
      StepTells(chain, w, events[0], id);
      StepFaithful(chain, w, events[0]);
      EverythingIsTold(chain, w1, events[1..], id);
      RowsAdd(c, w1.client, Run(chain, w1, events[1..]).client, id);
    }
  }

  lemma IsOwned(chain: seq<Block>, w: World)
    requires Faithful(chain, w)
    ensures Owned(w.client)
  {
  }

  lemma RowsAdd(c: Client, c1: Client, c2: Client, id: string)
    requires SameIdsBefore(c, c1, id) && SameIdsBefore(c1, c2, id)
    ensures SameIdsBefore(c, c2, id)
    ensures Ids(NewRows(c, c2, id)) == Ids(NewRows(c, c1, id)) + Ids(NewRows(c1, c2, id))
  {
    var a, b, d := c.channels[id].items, c1.channels[id].items, c2.channels[id].items;
    assert Ids(d)[|a|..] == Ids(d[|a|..]);
    assert Ids(d) == Ids(a) + (Ids(b[|a|..]) + Ids(d[|b|..]));
  }

  // ----- failures move on to the next gateway -----

  // The context waits for this kind of answer.
  predicate Waits(c: Client, ctx: nat, page: bool) {
    && ctx in c.contexts && c.contexts[ctx] != [] && c.contexts[ctx][0].channelId in c.channels
    && (if page then c.contexts[ctx][0].request.Page? else c.contexts[ctx][0].request.Info?)
  }

  // The active gateway failed: no health answer, no finalized end, or no page.
  predicate GatewayFails(w: World, e: Event) {
    match e
    case HealthReply(online) => online.None?
    case InfoReply(ctx, ok) =>
      Waits(w.client, ctx, false) && (LibAnswer(w, ctx, ok).None? || LibAnswer(w, ctx, ok).value <= 0)
    case PageReply(ctx, outcome) => Waits(w.client, ctx, true) && outcome != Served
    case _ => false
  }

  function Next(c: Client): nat {
    if c.active + 1 == c.gateways then 0 else c.active + 1
  }

  lemma NextPageStays(c: Client, ctx: nat, id: string, gateway: nat, lib: int, pagesLeft: int)
    requires id in c.channels
    ensures var r := NextPage(c, ctx, id, gateway, lib, pagesLeft); r.active == c.active && r.gateways == c.gateways
  {
    hide SaveAll;
  }

  lemma FailOverMoves(c: Client)
    requires c.active < c.gateways
    ensures FailOver(c).active == Next(c) && FailOver(c).gateways == c.gateways
  {
  }

  lemma LostPageMoves(c: Client, ctx: nat, r: Reply, body: PageBody)
    requires r.channelId in c.channels && r.request.Page? && !body.Body? && c.active < c.gateways
    ensures OnPage(c, ctx, r, body).active == Next(c) && OnPage(c, ctx, r, body).gateways == c.gateways
  {
    hide SaveAll;
    FailOverMoves(c);
  }

  lemma ServedPageStays(c: Client, ctx: nat, r: Reply, body: PageBody)
    requires r.channelId in c.channels && r.request.Page? && body.Body?
    ensures OnPage(c, ctx, r, body).active == c.active && OnPage(c, ctx, r, body).gateways == c.gateways
  {
    hide NextPage, WithPage;
    PageKeepsGateway(c, r, body.blocks);
    NextPageStays(WithPage(c, r, body.blocks), ctx, r.channelId, r.gateway, r.request.lib, r.request.pagesLeft - 1);
  }

  lemma PageMoves(chain: seq<Block>, w: World, ctx: nat, outcome: PageOutcome)
    requires w.client.active < w.client.gateways
    ensures var r := ClientStep(chain, w, PageReply(ctx, outcome)); var c := w.client;
            && r.gateways == c.gateways
            && r.active == if GatewayFails(w, PageReply(ctx, outcome)) then Next(c) else c.active
  {
    hide OnPage, Slice;
    var c := w.client;
    if Waits(c, ctx, true) {
      var body := PageAnswer(chain, w, ctx, outcome);
      if outcome == Served {
        ServedPageStays(Arrive(c, ctx), ctx, c.contexts[ctx][0], body);
      } else {
        LostPageMoves(Arrive(c, ctx), ctx, c.contexts[ctx][0], body);
      }
    }
  }

  lemma PageKeepsGateway(c: Client, r: Reply, blocks: seq<Block>)
    requires r.channelId in c.channels && r.request.Page?
    ensures var r' := WithPage(c, r, blocks);
            r'.active == c.active && r'.gateways == c.gateways && r.channelId in r'.channels
  {
    hide Merge, Added, MaxSlot, LastCurator, Found, PageStats;
  }

  lemma InfoMoves(chain: seq<Block>, w: World, ctx: nat, ok: bool)
    requires w.client.active < w.client.gateways
    ensures var r := ClientStep(chain, w, InfoReply(ctx, ok)); var c := w.client;
            && r.gateways == c.gateways
            && r.active == if GatewayFails(w, InfoReply(ctx, ok)) then Next(c) else c.active
  {
    hide NextPage, SaveAll, LibAnswer;
    var c, lib := w.client, LibAnswer(w, ctx, ok);
    if Waits(c, ctx, false) && lib.Some? && lib.value > 0 {
      NextPageStays(Arrive(c, ctx), ctx, c.contexts[ctx][0].channelId, c.contexts[ctx][0].gateway, lib.value, MAX_PAGES);
    }
  }

  lemma StepMoves(chain: seq<Block>, w: World, e: Event)
    requires Owned(w.client) && e != Restart
    ensures var r := Step(chain, w, e).client; var c := w.client;
            && r.gateways == c.gateways
            && r.active == if GatewayFails(w, e) then Next(c) else c.active
  {
    hide OnInfo, OnPage, SaveAll, LibAnswer, PageAnswer;
    match e
    case PageReply(ctx, outcome) => PageMoves(chain, w, ctx, outcome);
    case InfoReply(ctx, ok) => InfoMoves(chain, w, ctx, ok);
    case _ =>
  }

  function Failures(chain: seq<Block>, w: World, events: seq<Event>): nat
    decreases |events|
  {
    if events == [] then 0
    else Bit(GatewayFails(w, events[0])) + Failures(chain, Step(chain, w, events[0]), events[1..])
  }

  // The gateway n turns after the a-th of g that stand in a circle.
  function Turn(a: nat, n: nat, g: nat): (r: nat)
    requires a < g
    ensures r < g
    decreases n
  {
    if n == 0 then a else Turn(if a + 1 == g then 0 else a + 1, n - 1, g)
  }

  lemma {:induction false} TurnIs(a: nat, n: nat, g: nat)
    requires a < g && n <= g
    ensures Turn(a, n, g) == if a + n < g then a + n else a + n - g
    decreases n
  {
    if n > 0 {
      if a + 1 < g {
        TurnIs(a + 1, n - 1, g);
      } else {
        TurnIs(0, n - 1, g);
      }
    }
  }

  // The gateways take turns: after n failures, whatever else came between, the n-th one after the first is active.
  // So each is used before all have failed once.
  lemma {:induction false} GatewaysTakeTurns(chain: seq<Block>, w: World, events: seq<Event>)
    requires Faithful(chain, w) && Restart !in events
    ensures var c, r, n := w.client, Run(chain, w, events).client, Failures(chain, w, events);
            && r.gateways == c.gateways > c.active && r.active == Turn(c.active, n, c.gateways)
            && (n <= c.gateways ==> r.active == if c.active + n < c.gateways then c.active + n else c.active + n - c.gateways)
    decreases |events|
  {
    hide Faithful, Step, GatewayFails;
    SomeGateway(chain, w);
    if events != [] {
      StepMoves(chain, w, events[0]);
      StepFaithful(chain, w, events[0]);
      GatewaysTakeTurns(chain, Step(chain, w, events[0]), events[1..]);
    }
    if Failures(chain, w, events) <= w.client.gateways {
      TurnIs(w.client.active, Failures(chain, w, events), w.client.gateways);
    }
  }

  lemma SomeGateway(chain: seq<Block>, w: World)
    requires Faithful(chain, w)
    ensures w.client.active < w.client.gateways && Owned(w.client)
  {
  }

  // A gateway that failed shows as offline; a health answer shows what the node calls itself.
  lemma HealthIsShown(chain: seq<Block>, w: World, e: Event, online: bool)
    requires Owned(w.client)
    ensures GatewayFails(w, e) ==> Step(chain, w, e).client.health == Offline
    ensures Step(chain, w, HealthReply(Some(online))).client.health == if online then Ready else Degraded
  {
    hide NextPage, WithPage, SaveAll, LibAnswer;
  }

  // A context is disposed of once its scan has ended, and no outstanding reply goes with it.
  lemma OnlyEndedContextsGo(c: Client, ctx: nat)
    requires Owned(c)
    ensures var r := Scan.Reap(c, ctx);
            && (forall x | x in c.contexts && c.contexts[x] != [] :: x in r.contexts && r.contexts[x] == c.contexts[x])
            && ((forall k | k in c.scanning :: c.scanning[k] != ctx) ==> ctx !in r.contexts)
            && r == c.(contexts := r.contexts)
  {
    forall x | x in c.contexts && c.contexts[x] != [] ensures x in c.scanning.Values {
      assert OwnedContext(c, x);
    }
  }

  // A new process begins offline with the first gateway, nothing outstanding and nothing told.
  lemma RestartBeginsAnew(c: Client)
    ensures var r := Scan.Restart(c);
            && r.health == Offline && r.active == 0 && r.gateways == c.gateways && r.explorer == c.explorer
            && r.scanning == map[] && r.contexts == map[] && r.signals == [] && r.disk == c.disk
  {
  }

  // ----- where a fresh follow starts -----

  // The scan of the channel waits for the answer to this request, and the file has its record.
  ghost predicate Asking(c: Client, id: string, ctx: nat, gateway: nat, request: Request) {
    && OneReply(c, id) && c.scanning[id] == ctx && TheReply(c, id) == Reply(id, gateway, request)
    && c.disk.Some? && id in c.disk.value && c.disk.value[id].startSlot == c.channels[id].startSlot
  }

  lemma FreshFollow(c: Client, id: string, startSlot: nat)
    requires Owned(c) && id != "" && id !in c.channels
    ensures var r := Scan.Follow(c, id, startSlot);
            && Asking(r, id, c.nextContext, c.active,
                      if startSlot == 0 && c.explorer then ExplorerChannel else Request.Info)
            && r.channels[id] == NewChannel(id, startSlot)
  {
    FollowOwned(c, id, startSlot);
    assert id !in c.scanning;
  }

  // An answer to another question is not for this context.
  lemma Unasked(c: Client, id: string, ctx: nat, gateway: nat, request: Request, a: Answer)
    requires Asking(c, id, ctx, gateway, request) && !Fits(request, a)
    ensures Deliver(c, ctx, a) == c
  {
  }

  lemma ExplorerKnows(c: Client, id: string, ctx: nat, gateway: nat, known: bool)
    requires Asking(c, id, ctx, gateway, ExplorerChannel)
    ensures var r := Deliver(c, ctx, FirstBlock(known));
            Asking(r, id, ctx, gateway, if known then ExplorerBlock else Request.Info) && r.channels == c.channels
  {
  }

  lemma ExplorerNames(c: Client, id: string, ctx: nat, gateway: nat, slot: Option<int>)
    requires Asking(c, id, ctx, gateway, ExplorerBlock)
    ensures var r := Deliver(c, ctx, BlockSlot(slot));
            && Asking(r, id, ctx, gateway, Request.Info)
            && r.channels[id] == if slot.Some? && slot.value > 0 then c.channels[id].(startSlot := slot.value)
                                 else c.channels[id]
  {
  }

  // What the explorer is asked and what it answers decide where a fresh follow starts; a slot it names is saved
  // before the scan goes on.
  lemma FollowAsksForInfo(c: Client, id: string, startSlot: nat, known: bool, slot: Option<int>)
    requires Owned(c) && id != "" && id !in c.channels
    ensures var ctx := c.nextContext;
            var r := Deliver(Deliver(Scan.Follow(c, id, startSlot), ctx, FirstBlock(known)), ctx, BlockSlot(slot));
            && Asking(r, id, ctx, c.active, Request.Info)
            && r.channels[id] == NewChannel(id, FirstSlotOf(c, startSlot, known, slot))
  {
    hide Asking, Deliver, Owned;
    var ctx, c1 := c.nextContext, Scan.Follow(c, id, startSlot);
    FreshFollow(c, id, startSlot);
    if startSlot == 0 && c.explorer {
      ExplorerKnows(c1, id, ctx, c.active, known);
      var c2 := Deliver(c1, ctx, FirstBlock(known));
      if known {
        ExplorerNames(c2, id, ctx, c.active, slot);
      } else {
        Unasked(c2, id, ctx, c.active, Request.Info, BlockSlot(slot));
      }
    } else {
      Unasked(c1, id, ctx, c.active, Request.Info, FirstBlock(known));
      Unasked(c1, id, ctx, c.active, Request.Info, BlockSlot(slot));
    }
  }

  function FirstSlotOf(c: Client, startSlot: nat, known: bool, slot: Option<int>): int {
    if startSlot > 0 then startSlot
    else if c.explorer && known && slot.Some? && slot.value > 0 then slot.value
    else 0
  }

  lemma AsksInfo(w: World, id: string, ctx: nat, gateway: nat)
    requires Asking(w.client, id, ctx, gateway, Request.Info)
    ensures WaitsForInfo(w, id, ctx, gateway)
  {
  }

  lemma PageFromNext(chain: seq<Block>, w: World, id: string, ctx: nat, lib: int)
    requires Faithful(chain, w) && WaitsForPage(w, id, ctx, lib, MAX_PAGES)
    ensures TheReply(w.client, id).request.from == NextSlot(w.client.channels[id])
  {
    assert RequestOk(w.client.channels[id], TheReply(w.client, id), w.libs);
  }

  // So the first page of a fresh follow begins at the slot given, else at the one the explorer names for the
  // channel's first block, else at 0.
  lemma FirstPageStartsThere(chain: seq<Block>, w: World, id: string, startSlot: nat, known: bool, slot: Option<int>)
    requires Faithful(chain, w) && id != "" && id !in w.client.channels && ActiveLib(w) > 0
    ensures var ctx := w.client.nextContext;
            var w1 := Step(chain, w, Follow(id, startSlot));
            var w2 := Step(chain, Step(chain, w1, ExplorerChannelReply(ctx, known)), ExplorerBlockReply(ctx, slot));
            var w3 := Step(chain, w2, InfoReply(ctx, true));
            var first := FirstSlotOf(w.client, startSlot, known, slot);
            if first <= ActiveLib(w)
            then WaitsForPage(w3, id, ctx, ActiveLib(w), MAX_PAGES) && TheReply(w3.client, id).request.from == first
            else Ended(w3, id, true)
  {
    hide Faithful, Asking, Deliver, WaitsForInfo, WaitsForPage, Ended;
    var ctx := w.client.nextContext;
    var w1 := Step(chain, w, Follow(id, startSlot));
    var w1' := Step(chain, w1, ExplorerChannelReply(ctx, known));
    var w2 := Step(chain, w1', ExplorerBlockReply(ctx, slot));
    IsOwned(chain, w);
    StepFaithful(chain, w, Follow(id, startSlot));
    StepFaithful(chain, w1, ExplorerChannelReply(ctx, known));
    StepFaithful(chain, w1', ExplorerBlockReply(ctx, slot));
    FollowAsksForInfo(w.client, id, startSlot, known, slot);
    ActiveInRange(chain, w);
    AsksInfo(w2, id, ctx, w.client.active);
    InfoServed(chain, w2, id, ctx, w.client.active);
    if FirstSlotOf(w.client, startSlot, known, slot) <= ActiveLib(w) {
      PageFromNext(chain, Step(chain, w2, InfoReply(ctx, true)), id, ctx, ActiveLib(w));
    }
  }

  // ----- scans that fail, and settings -----

  // A page that does not come, or is too large, leaves the channel as the pages before it did; only the oversized
  // body is counted. The scan is over, and said to be.
  lemma LostPageKeepsTheChannel(chain: seq<Block>, w: World, id: string, ctx: nat, lib: int, pagesLeft: int, outcome: PageOutcome)
    requires Faithful(chain, w) && WaitsForPage(w, id, ctx, lib, pagesLeft) && outcome != Served
    ensures var w' := Step(chain, w, PageReply(ctx, outcome)); var ch := w.client.channels[id];
            && id in w'.client.channels && id !in w'.client.scanning && w'.client.health == Offline
            && w'.client.signals == w.client.signals + [ScanFinished(id, false)]
            && w'.client.channels[id] ==
               ch.(lastScan := ch.lastScan.(oversizedBodies := ch.lastScan.oversizedBodies + Bit(outcome == Oversize)))
  {
    hide Agrees, CountsAgree, SaveAll, RequestsOk;
    ArriveServing(w.client, ctx);
  }

  // A name and the automatic mode survive a restart; of a name the first 64 characters do.
  lemma SettingsSurvive(c: Client, id: string, name: string, on: bool)
    requires id in c.channels && id != ""
    ensures var named, moded := Scan.Restart(Scan.SetName(c, id, name)), Scan.Restart(SetAutoPreserve(c, id, on));
            && id in named.channels && id in moded.channels && moded.channels[id].autoPreserve == on
            && named.channels[id].name <= name
            && (|name| <= 64 ==> named.channels[id].name == name)
            && (|name| > 64 ==> |named.channels[id].name| == 64)
  {
    assert name[..|name|] == name;
  }

  // What the preserve machinery writes on an item is on disk at once: after a restart the item holds those CIDs, and
  // that state unless it was mirroring or failed.
  lemma MarksSurvive(c: Client, id: string, i: nat, m: Mark)
    requires id in c.channels && id != "" && i < |c.channels[id].items|
    ensures var r := Scan.Restart(Scan.MarkItem(c, id, i, m, true));
            && id in r.channels && |r.channels[id].items| == |c.channels[id].items|
            && r.channels[id].items[i].storedCids == m.storedCids && r.channels[id].items[i].progress == 0
            && r.channels[id].items[i].state ==
               if m.state == Mirroring || m.state == Failed then Available else m.state
  {
  }
}
