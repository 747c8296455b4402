/** The gateway client as the program runs it (src/lez_client.cpp): an object whose handlers update the
    followed channels, the running scans and the state file in place. Each method is proved against the
    function of the same handler in ScanSteps. */
module LezClients {
  import opened Basics
  import opened Inscriptions
  import opened Channels
  import opened Persistence
  import Scan = ScanSteps
  import opened ScanSteps

  class LezClient {
    const gateways: nat
    const explorer: bool
    var active: nat
    var health: Health
    var channels: map<string, Channel>
    var scanning: map<string, nat>
    var contexts: map<nat, seq<Reply>>
    var nextContext: nat
    var signals: seq<Signal>
    var disk: Option<Snapshot>

    ghost function Model(): Client
      reads this
    {
      Client(gateways, explorer, active, health, channels, scanning, contexts, nextContext, signals, disk)
    }

    ghost predicate Valid()
      reads this
    {
      Owned(Model())
    }

    constructor (gateways: nat, explorer: bool)
      requires gateways > 0
      ensures Model() == NewClient(gateways, explorer) && Valid()
    {
      this.gateways, this.explorer := gateways, explorer;
      active, health := 0, Offline;
      channels, scanning, contexts := map[], map[], map[];
      nextContext := 0;
      signals, disk := [], None;
    }

    // ----- persistence -----

    static method SaveRows(items: seq<Item>) returns (rows: seq<SavedItem>)
      ensures rows == SaveItems(items)
    {
      rows := [];
      for i := 0 to |items|
        invariant rows == SaveItems(items[..i])
      {
        assert items[..i + 1] == items[..i] + [items[i]];
        rows := rows + [SaveItem(items[i])];
      }
      assert items[..|items|] == items;
    }

    method SaveState()
      modifies this`disk
      ensures Model() == Scan.SaveState(old(Model()))
    {
      var todo := channels.Keys;
      var chans: Snapshot := map[];
      while todo != {}
        invariant todo <= channels.Keys
        invariant chans == map k | k in channels && k !in todo :: SaveChannel(channels[k])
        decreases todo
      {
        var k :| k in todo;
        var ch := channels[k];
        var rows := SaveRows(ch.items);
        chans := chans[k := SavedChannel(ch.channelId, ch.name, ch.startSlot, ch.cursor, ch.autoPreserve,
                                         ch.lastInscription, ch.curator, ch.synced, rows)];
        todo := todo - {k};
      }
      assert chans == SaveAll(channels);
      disk := Some(chans);
    }

    static method LoadRows(rows: seq<SavedItem>, channelId: string) returns (items: seq<Item>)
      ensures items == LoadItems(rows, channelId)
    {
      items := [];
      for i := 0 to |rows|
        invariant items == LoadItems(rows[..i], channelId)
      {
        assert rows[..i + 1] == rows[..i] + [rows[i]];
        items := items + [LoadItem(rows[i], channelId)];
      }
      assert rows[..|rows|] == rows;
    }

    // A new process: nothing runs, and the channels are those of the state file.
    method Restart()
      modifies this
      ensures Model() == Scan.Restart(old(Model()))
    {
      active, health := 0, Offline;
      scanning, contexts, signals := map[], map[], [];
      var loaded: map<string, Channel> := map[];
      if disk.Some? {
        var file := disk.value;
        var todo := file.Keys;
        while todo != {}
          invariant todo <= file.Keys
          invariant loaded == map k | k in file && k !in todo && k != "" :: LoadChannel(file[k])
          modifies {}
          decreases todo
        {
          var k :| k in todo;
          var s := file[k];
          if k != "" {
            var items := LoadRows(s.items, s.channelId);
            loaded := loaded[k := Channel(s.channelId, s.name, s.startSlot, s.cursor, s.lastInscription,
                                          s.curator, s.synced, 0, s.autoPreserve, NO_STATS, items)];
          }
          todo := todo - {k};
        }
        assert loaded == LoadAll(file);
      }
      channels := loaded;
    }

    // ----- plumbing -----

    method FailOver()
      requires active < gateways
      modifies this`active, this`health
      ensures Model() == Scan.FailOver(old(Model()))
    {
      health := Offline;
      if gateways > 1 {
        active := (active + 1) % gateways;
      }
    }

    method Ask(ctx: nat, r: Reply)
      requires ctx in contexts
      modifies this`contexts
      ensures Model() == Scan.Ask(old(Model()), ctx, r)
    {
      contexts := contexts[ctx := contexts[ctx] + [r]];
    }

    method EndScan(id: string)
      modifies this`scanning
      ensures Model() == Scan.EndScan(old(Model()), id)
    {
      scanning := scanning - {id};
    }

    // ----- commands -----

    method StartScan(id: string)
      requires Valid() && id in channels
      modifies this
      ensures Model() == Scan.StartScan(old(Model()), id) && Valid()
    {
      StartScanOwned(Model(), id);
      if id in scanning {
        return;
      }
      var ctx := nextContext;
      nextContext := nextContext + 1;
      contexts := contexts[ctx := []];
      scanning := scanning[id := ctx];
      channels := channels[id := channels[id].(lastScan := NO_STATS)];
      var gateway := active;
      var ch := channels[id];
      if ch.startSlot == 0 && ch.cursor == 0 && explorer {
        Ask(ctx, Reply(id, gateway, ExplorerChannel));
      } else {
        Ask(ctx, Reply(id, gateway, Info));
      }
    }

    method FollowChannel(id: string, startSlot: nat) returns (ok: bool)
      requires Valid()
      modifies this
      ensures Model() == Scan.Follow(old(Model()), id, startSlot) && Valid()
      ensures ok == (id != "" && id !in old(channels))
    {
      FollowOwned(Model(), id, startSlot);
      if id == "" || id in channels {
        return false;
      }
      AddChannelOwned(Model(), id, startSlot);
      channels := channels[id := NewChannel(id, startSlot)];
      SaveState();
      StartScan(id);
      return true;
    }

    method UnfollowChannel(id: string) returns (ok: bool)
      requires Valid()
      modifies this
      ensures Model() == Scan.Unfollow(old(Model()), id) && Valid()
      ensures ok == (id in old(channels))
    {
      UnfollowOwned(Model(), id);
      if id !in channels {
        return false;
      }
      channels := channels - {id};
      if id in scanning {
        var ctx := scanning[id];
        scanning := scanning - {id};
        contexts := contexts - {ctx};
      }
      SaveState();
      return true;
    }

    method RefreshChannel(id: string) returns (ok: bool)
      requires Valid()
      modifies this
      ensures Model() == Scan.Refresh(old(Model()), id) && Valid()
      ensures ok == (id in old(channels) && id !in old(scanning))
    {
      if id !in channels || id in scanning {
        return false;
      }
      StartScan(id);
      return true;
    }

    method SetChannelLabel(id: string, caption: string) returns (ok: bool)
      requires Valid()
      modifies this
      ensures Model() == SetName(old(Model()), id, caption) && Valid()
      ensures ok == (id in old(channels))
    {
      SameControlOwned(Model(), SetName(Model(), id, caption));
      if id !in channels {
        return false;
      }
      channels := channels[id := channels[id].(name := caption[..Min(|caption|, 64)])];
      SaveState();
      return true;
    }

    method SetAutoPreserve(id: string, on: bool) returns (ok: bool)
      requires Valid()
      modifies this
      ensures Model() == Scan.SetAutoPreserve(old(Model()), id, on) && Valid()
      ensures ok == (id in old(channels))
    {
      SameControlOwned(Model(), Scan.SetAutoPreserve(Model(), id, on));
      if id !in channels {
        return false;
      }
      channels := channels[id := channels[id].(autoPreserve := on)];
      SaveState();
      return true;
    }

    // ----- replies -----

    // The next page of a scan, or its end. The channel must still be there: the assertion of the source
    // is this precondition, and every caller below meets it.
    method ScanNextPage(id: string, ctx: nat, gateway: nat, lib: int, pagesLeft: int)
      requires id in channels && ctx in contexts
      modifies this
      ensures Model() == NextPage(old(Model()), ctx, id, gateway, lib, pagesLeft)
    {
      var ch := channels[id].(lastLibSlot := lib);
      var from := if ch.cursor > 0 then ch.cursor + 1 else ch.startSlot;
      if from > lib || pagesLeft <= 0 {
        ch := ch.(synced := from > lib);
        channels := channels[id := ch];
        EndScan(id);
        SaveState();
        signals := signals + [ScanFinished(id, ch.synced)];
        return;
      }
      channels := channels[id := ch];
      var to := Min(from + PAGE_SLOTS - 1, lib);
      Ask(ctx, Reply(id, gateway, Page(lib, pagesLeft, from, to)));
    }

    // Takes the outstanding reply off its context.
    method TakeReply(ctx: nat) returns (r: Reply)
      requires Valid() && ctx in contexts && contexts[ctx] != []
      modifies this`contexts
      ensures Model() == Arrive(old(Model()), ctx) && r == old(contexts[ctx][0])
      ensures r.channelId in channels && ctx in contexts && r.gateway < gateways
      ensures Serving(Model(), r.channelId, ctx)
    {
      ArriveServing(Model(), ctx);
      r := contexts[ctx][0];
      contexts := contexts[ctx := contexts[ctx][1..]];
    }

    method OnExplorerChannel(ctx: nat, known: bool)
      requires Valid() && ctx in contexts && contexts[ctx] != [] && contexts[ctx][0].request.ExplorerChannel?
      modifies this
      ensures Model() == Deliver(old(Model()), ctx, FirstBlock(known)) && Valid()
    {
      DeliverOwned(Model(), ctx, FirstBlock(known));
      var r := TakeReply(ctx);
      if known {
        Ask(ctx, r.(request := ExplorerBlock));
      } else {
        Ask(ctx, r.(request := Info));
      }
    }

    method OnExplorerBlock(ctx: nat, slot: Option<int>)
      requires Valid() && ctx in contexts && contexts[ctx] != [] && contexts[ctx][0].request.ExplorerBlock?
      modifies this
      ensures Model() == Deliver(old(Model()), ctx, BlockSlot(slot)) && Valid()
    {
      DeliverOwned(Model(), ctx, BlockSlot(slot));
      var r := TakeReply(ctx);
      if slot.Some? && slot.value > 0 && r.channelId in channels {
        channels := channels[r.channelId := channels[r.channelId].(startSlot := slot.value)];
        SaveState();
      }
      Ask(ctx, r.(request := Info));
    }

    method OnInfo(ctx: nat, lib: Option<int>)
      requires Valid() && ctx in contexts && contexts[ctx] != [] && contexts[ctx][0].request.Info?
      modifies this
      ensures Model() == Deliver(old(Model()), ctx, LibSlot(lib)) && Valid()
    {
      DeliverOwned(Model(), ctx, LibSlot(lib));
      var r := TakeReply(ctx);
      if lib.None? || lib.value <= 0 {
        EndScan(r.channelId);
        FailOver();
        signals := signals + [ScanFinished(r.channelId, false)];
        return;
      }
      ScanNextPage(r.channelId, ctx, r.gateway, lib.value, MAX_PAGES);
    }

    method FailPage(id: string)
      requires active < gateways
      modifies this
      ensures Model() == PageFailed(old(Model()), id)
    {
      EndScan(id);
      SaveState();
      FailOver();
      signals := signals + [ScanFinished(id, false)];
    }

    method MergeBlocks(r: Reply, blocks: seq<Block>)
      requires r.channelId in channels && r.request.Page? && channels[r.channelId].channelId == r.channelId
      modifies this`channels, this`signals
      ensures Model() == WithPage(old(Model()), r, blocks) && r.channelId in channels
    {
      hide Merge, Matches, Inscribed, TallyOf, MaxSlot, LastCurator, NotFinalized;
      var id, req := r.channelId, r.request;
      var ch := channels[id];
      var found, pageStats := ExtractItems(blocks, id, req.lib);
      TallyConserves(Inscribed(blocks, req.lib), id);
      var newIds;
      ch, pageStats, newIds := MergeFound(ch, found, pageStats);
      ch := ch.(cursor := req.to);
      var total := ch.lastScan;
      total := total.(scannedSlots := total.scannedSlots + (req.to - req.from + 1), pages := total.pages + 1);
      total := total.(matched := total.matched + pageStats.matched,
                      notFinalized := total.notFinalized + pageStats.notFinalized,
                      notJson := total.notJson + pageStats.notJson,
                      oversized := total.oversized + pageStats.oversized,
                      noCid := total.noCid + pageStats.noCid,
                      duplicate := total.duplicate + pageStats.duplicate,
                      otherChannel := total.otherChannel + pageStats.otherChannel);
      channels := channels[id := ch.(lastScan := total)];
      if newIds != [] {
        signals := signals + [ItemsDiscovered(id, newIds)];
      }
    }

    method OnPage(ctx: nat, body: PageBody)
      requires Valid() && ctx in contexts && contexts[ctx] != [] && contexts[ctx][0].request.Page?
      modifies this
      ensures Model() == Deliver(old(Model()), ctx, Blocks(body)) && Valid()
    {
      hide WithPage, NextPage, PageFailed, MergePage, SaveAll;
      DeliverOwned(Model(), ctx, Blocks(body));
      var r := TakeReply(ctx);
      var id := r.channelId;
      match body
      case Unreachable =>
        FailPage(id);
      case TooLarge =>
        var ch := channels[id];
        channels := channels[id := ch.(lastScan := ch.lastScan.(oversizedBodies := ch.lastScan.oversizedBodies + 1))];
        FailPage(id);
      case Body(blocks) =>
        MergeBlocks(r, blocks);
        ScanNextPage(id, ctx, r.gateway, r.request.lib, r.request.pagesLeft - 1);
    }

    method OnHealth(online: Option<bool>)
      requires Valid()
      modifies this`active, this`health
      ensures Model() == Scan.OnHealth(old(Model()), online) && Valid()
    {
      SameControlOwned(Model(), Scan.OnHealth(Model(), online));
      if online.None? {
        FailOver();
      } else {
        health := if online.value then Ready else Degraded;
      }
    }
  }

  lemma AddChannelOwned(c: Client, id: string, startSlot: nat)
    requires Owned(c) && id != "" && id !in c.channels
    ensures Owned(Scan.SaveState(WithChannel(c, id, NewChannel(id, startSlot))))
  {
    var c' := Scan.SaveState(WithChannel(c, id, NewChannel(id, startSlot)));
    forall k | k in c'.scanning ensures OneReply(c', k) {
      assert OneReply(c, k);
    }
    forall x | x in c'.contexts ensures OwnedContext(c', x) {
      assert OwnedContext(c, x);
    }
  }
}
