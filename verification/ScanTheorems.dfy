/** What every run of the scan machine guarantees: items that are one decode of the covered slots, state
    files that say the same, and no reply from before an unfollow. */
module ScanTheorems {
  import opened Basics
  import opened Inscriptions
  import opened Channels
  import opened Persistence
  import Scan = ScanSteps
  import opened ScanSteps
  import opened ScanRuns

  // ----- one step -----

  lemma StartScanGood(chain: seq<Block>, c: Client, libs: seq<int>, id: string)
    requires Good(chain, c, libs) && id in c.channels
    ensures Good(chain, StartScan(c, id), libs)
  {
    if id !in c.scanning {
      StartScanOwned(c, id);
      StartScanRequests(c, libs, id);
      StartScanBooks(chain, c, id);
    }
  }

  lemma StartScanBooks(chain: seq<Block>, c: Client, id: string)
    requires Books(chain, c) && id in c.channels && id !in c.scanning
    ensures Books(chain, StartScan(c, id))
  {
    ResetAgrees(chain, c.channels[id]);
    hide Agrees, CountsAgree;
  }

  lemma ResetAgrees(chain: seq<Block>, ch: Channel)
    requires Agrees(chain, ch)
    ensures Agrees(chain, ch.(lastScan := NO_STATS)) && CountsAgree(chain, ch.(lastScan := NO_STATS))
  {
    hide FirstById, Decode, OpsIn, TallyOf, MaxSlot, LastCurator, Essences;
    FreshCounts(chain, ch.(lastScan := NO_STATS));
  }

  lemma StartScanRequests(c: Client, libs: seq<int>, id: string)
    requires Owned(c) && RequestsOk(c, libs) && id in c.channels && id !in c.scanning && Owned(StartScan(c, id))
    ensures RequestsOk(StartScan(c, id), libs)
  {
    var c' := StartScan(c, id);
    forall k | k in c'.scanning ensures RequestOk(c'.channels[k], TheReply(c', k), libs) {
      assert OneReply(c', k);
      if k != id {
        assert OneReply(c, k) && OwnedContext(c, c.scanning[k]);
        assert TheReply(c', k) == TheReply(c, k);
      }
    }
  }

  lemma FollowGood(chain: seq<Block>, c: Client, libs: seq<int>, id: string, startSlot: nat)
    requires Good(chain, c, libs)
    ensures Good(chain, Scan.Follow(c, id, startSlot), libs)
  {
    hide Agrees, CountsAgree, StartScan;
    if id != "" && id !in c.channels {
      var put := WithChannel(c, id, NewChannel(id, startSlot));
      NewChannelAgrees(chain, id, startSlot);
      WithChannelBooks(chain, c, id, NewChannel(id, startSlot));
      AddedChannelRequests(c, libs, id, startSlot);
      SaveGood(chain, put, libs);
      StartScanGood(chain, SaveState(put), libs, id);
    }
  }

  lemma AddedChannelRequests(c: Client, libs: seq<int>, id: string, startSlot: nat)
    requires Owned(c) && RequestsOk(c, libs) && id != "" && id !in c.channels
    ensures var put := WithChannel(c, id, NewChannel(id, startSlot)); Owned(put) && RequestsOk(put, libs)
  {
    var put := WithChannel(c, id, NewChannel(id, startSlot));
    forall k | k in put.scanning ensures OneReply(put, k) && RequestOk(put.channels[k], TheReply(put, k), libs) {
      assert OneReply(c, k);
      assert TheReply(put, k) == TheReply(c, k);
    }
    forall x | x in put.contexts ensures OwnedContext(put, x) {
      assert OwnedContext(c, x);
    }
  }

  lemma UnfollowGood(chain: seq<Block>, c: Client, libs: seq<int>, id: string)
    requires Good(chain, c, libs)
    ensures Good(chain, Scan.Unfollow(c, id), libs)
  {
    hide Agrees, CountsAgree;
    if id in c.channels {
      var c' := Scan.Unfollow(c, id);
      UnfollowOwned(c, id);
      assert ChannelsAgree(chain, c');
      UnfollowDisk(chain, c, id);
      forall k | k in c'.scanning ensures RequestOk(c'.channels[k], TheReply(c', k), libs) {
        assert OneReply(c, k) && OneReply(c', k);
        assert TheReply(c', k) == TheReply(c, k);
      }
    }
  }

  lemma UnfollowDisk(chain: seq<Block>, c: Client, id: string)
    requires WellFormed(c) && ChannelsAgree(chain, c) && id in c.channels
    ensures DiskAgrees(chain, Scan.Unfollow(c, id))
  {
    hide Agrees, CountsAgree;
    var without := c.(channels := c.channels - {id});
    SaveBooks(chain, without);
  }

  // A change of one channel's record that the chain and its outstanding request do not notice.
  lemma RecordGood(chain: seq<Block>, c: Client, libs: seq<int>, id: string, ch: Channel)
    requires Good(chain, c, libs) && id in c.channels
    requires Agrees(chain, ch) && CountsAgree(chain, ch)
    requires ch == c.channels[id].(name := ch.name, autoPreserve := ch.autoPreserve, items := ch.items)
    ensures Good(chain, WithChannel(c, id, ch), libs)
  {
    hide Agrees, CountsAgree;
    var c' := WithChannel(c, id, ch);
    SameControlOwned(c, c');
    forall k | k in c'.scanning ensures RequestOk(c'.channels[k], TheReply(c', k), libs) {
      assert OneReply(c, k) && OneReply(c', k);
      assert TheReply(c', k) == TheReply(c, k);
    }
  }

  lemma LabelsDoNotMatter(chain: seq<Block>, ch: Channel, name: string, on: bool)
    requires Agrees(chain, ch) && CountsAgree(chain, ch)
    ensures var ch' := ch.(name := name, autoPreserve := on); Agrees(chain, ch') && CountsAgree(chain, ch')
  {
    hide FirstById, Decode, OpsIn, TallyOf, MaxSlot, LastCurator, Essences;
  }

  lemma SettingsGood(chain: seq<Block>, c: Client, libs: seq<int>, id: string, name: string, on: bool)
    requires Good(chain, c, libs)
    ensures Good(chain, Scan.SetName(c, id, name), libs) && Good(chain, SetAutoPreserve(c, id, on), libs)
  {
    hide Agrees, CountsAgree;
    if id in c.channels {
      var ch := c.channels[id];
      LabelsDoNotMatter(chain, ch, name[..Min(|name|, 64)], ch.autoPreserve);
      RecordGood(chain, c, libs, id, ch.(name := name[..Min(|name|, 64)]));
      SaveGood(chain, WithChannel(c, id, ch.(name := name[..Min(|name|, 64)])), libs);
      LabelsDoNotMatter(chain, ch, ch.name, on);
      RecordGood(chain, c, libs, id, ch.(autoPreserve := on));
      SaveGood(chain, WithChannel(c, id, ch.(autoPreserve := on)), libs);
    }
  }

  lemma MarkGood(chain: seq<Block>, c: Client, libs: seq<int>, id: string, i: nat, m: Mark, save: bool)
    requires Good(chain, c, libs)
    ensures Good(chain, Scan.MarkItem(c, id, i, m, save), libs)
  {
    hide Agrees, CountsAgree;
    if id in c.channels && i < |c.channels[id].items| {
      var ch := c.channels[id];
      var ch' := ch.(items := ch.items[i := Marked(ch.items[i], m)]);
      MarkedAgrees(chain, ch, i, m);
      RecordGood(chain, c, libs, id, ch');
      SaveGood(chain, WithChannel(c, id, ch'), libs);
    }
  }

  lemma HealthGood(chain: seq<Block>, c: Client, libs: seq<int>, online: Option<bool>)
    requires Good(chain, c, libs)
    ensures Good(chain, OnHealth(c, online), libs)
  {
    hide Agrees, CountsAgree;
    SameRequests(c, OnHealth(c, online), libs);
  }

  lemma ReapGood(chain: seq<Block>, c: Client, libs: seq<int>, ctx: nat)
    requires Good(chain, c, libs)
    ensures Good(chain, Scan.Reap(c, ctx), libs)
  {
    hide Agrees, CountsAgree;
    var c' := Scan.Reap(c, ctx);
    ReapOwned(c, ctx);
    forall k | k in c'.scanning ensures RequestOk(c'.channels[k], TheReply(c', k), libs) {
      assert OneReply(c, k) && OneReply(c', k);
      assert TheReply(c', k) == TheReply(c, k);
    }
  }

  lemma RestartGood(chain: seq<Block>, c: Client, libs: seq<int>)
    requires Good(chain, c, libs)
    ensures Good(chain, Scan.Restart(c), libs)
  {
    hide Agrees, CountsAgree;
    if c.disk.Some? {
      forall k | k in c.disk.value
        ensures Agrees(chain, LoadChannel(c.disk.value[k])) && CountsAgree(chain, LoadChannel(c.disk.value[k]))
      {
        FreshCounts(chain, LoadChannel(c.disk.value[k]));
      }
    }
  }

  // Finality only grows, and what a request relies on stays true.
  lemma AdvanceGood(chain: seq<Block>, c: Client, libs: seq<int>, libs': seq<int>)
    requires Good(chain, c, libs) && |libs'| == |libs|
    requires forall g | 0 <= g < |libs| :: libs[g] <= libs'[g]
    ensures Good(chain, c, libs')
  {
    hide Agrees, CountsAgree;
    forall k | k in c.scanning ensures RequestOk(c.channels[k], TheReply(c, k), libs') {
      assert OneReply(c, k);
      assert RequestOk(c.channels[k], TheReply(c, k), libs);
    }
  }

  lemma ReplyGood(chain: seq<Block>, w: World, e: Event)
    requires Faithful(chain, w)
    requires e.ExplorerChannelReply? || e.ExplorerBlockReply? || e.InfoReply? || e.PageReply?
    ensures Good(chain, ClientStep(chain, w, e), w.libs)
  {
    hide Agrees, CountsAgree, Deliver;
    var c := w.client;
    match e
    case ExplorerChannelReply(ctx, known) => DeliverGood(chain, c, w.libs, ctx, FirstBlock(known));
    case ExplorerBlockReply(ctx, slot) => DeliverGood(chain, c, w.libs, ctx, BlockSlot(slot));
    case InfoReply(ctx, ok) => DeliverGood(chain, c, w.libs, ctx, LibSlot(LibAnswer(w, ctx, ok)));
    case PageReply(ctx, outcome) => DeliverGood(chain, c, w.libs, ctx, Blocks(PageAnswer(chain, w, ctx, outcome)));
  }

  lemma CommandGood(chain: seq<Block>, w: World, e: Event)
    requires Faithful(chain, w)
    requires !(e.ExplorerChannelReply? || e.ExplorerBlockReply? || e.InfoReply? || e.PageReply?)
    ensures Good(chain, ClientStep(chain, w, e), w.libs)
  {
    hide Agrees, CountsAgree, Good, Scan.Follow, Scan.Unfollow, Scan.SetName, SetAutoPreserve, Scan.MarkItem, SaveState,
      OnHealth, Scan.Reap, Scan.Restart, StartScan;
    var c, libs := w.client, w.libs;
    assert Good(chain, c, libs) by { FaithfulIsGood(chain, w); }
    match e
    case Follow(id, startSlot) => FollowGood(chain, c, libs, id, startSlot);
    case Unfollow(id) => UnfollowGood(chain, c, libs, id);
    case Refresh(id) =>
      if id in c.channels && id !in c.scanning {
        StartScanGood(chain, c, libs, id);
      }
    case SetName(id, name) => SettingsGood(chain, c, libs, id, name, false);
    case SetAuto(id, on) => SettingsGood(chain, c, libs, id, "", on);
    case MarkItem(id, index, mark, save) => MarkGood(chain, c, libs, id, index, mark, save);
    case Save => SaveGood(chain, c, libs);
    case HealthReply(online) => HealthGood(chain, c, libs, online);
    case Reap(ctx) => ReapGood(chain, c, libs, ctx);
    case Advance(_, _) =>
    case Restart => RestartGood(chain, c, libs);
  }

  lemma FaithfulIsGood(chain: seq<Block>, w: World)
    ensures Faithful(chain, w) <==> Good(chain, w.client, w.libs)
  {
    hide Agrees, CountsAgree;
  }

  lemma StepFaithful(chain: seq<Block>, w: World, e: Event)
    requires Faithful(chain, w)
    ensures Faithful(chain, Step(chain, w, e))
  {
    hide Faithful, Good, ClientStep;
    if e.ExplorerChannelReply? || e.ExplorerBlockReply? || e.InfoReply? || e.PageReply? {
      ReplyGood(chain, w, e);
    } else {
      CommandGood(chain, w, e);
    }
    var w' := Step(chain, w, e);
    AdvanceGood(chain, w'.client, w.libs, w'.libs);
    FaithfulIsGood(chain, w');
  }

  lemma StartFaithful(chain: seq<Block>, libs: seq<int>, explorer: bool)
    requires Ordered(chain) && libs != []
    ensures Faithful(chain, Start(libs, explorer))
  {
  }

  lemma {:induction false} RunFaithful(chain: seq<Block>, w: World, events: seq<Event>)
    requires Faithful(chain, w)
    ensures Faithful(chain, Run(chain, w, events))
    decreases |events|
  {
    hide Faithful, Step;
    if events != [] {
      StepFaithful(chain, w, events[0]);
      RunFaithful(chain, Step(chain, w, events[0]), events[1..]);
    }
  }
}
