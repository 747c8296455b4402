/** The state file (src/lez_client.cpp, saveState and loadState): what of a channel is written, and what
    loading makes of it. The file holds one record per followed channel, found by its id. */
module Persistence {
  import opened Basics
  import opened Inscriptions
  import opened Channels
  import Labels

  datatype SavedItem = SavedItem(
    id: string, display: Display, cid: string, inscribedAt: int, txHash: string, blockHash: string,
    txIndex: int, curator: string, state: ItemState, iaId: string, iaFile: string, storedCids: seq<string>)

  datatype SavedChannel = SavedChannel(
    channelId: string, name: string, startSlot: int, cursor: int, autoPreserve: bool,
    lastInscription: int, curator: string, synced: bool, items: seq<SavedItem>)

  type Snapshot = map<string, SavedChannel>

  function SaveItem(c: Item): SavedItem {
    SavedItem(c.id, c.display, c.cid, c.inscribedAtSlot, c.txHash, c.blockHash, c.txIndex, c.curator,
              c.state, c.iaId, c.iaFile, c.storedCids)
  }

  function LoadItem(s: SavedItem, channelId: string): Item {
    var ref := if s.iaId == "" then Labels.DeriveIaRef(s.cid, s.display.title) else Labels.IaRef(s.iaId, s.iaFile);
    Item(s.id, s.display, channelId, s.cid, s.inscribedAt, s.txHash, s.blockHash, s.txIndex, s.curator,
         ResetState(s.state), 0, ref.id, ref.file, s.storedCids)
  }

  function SaveItems(items: seq<Item>): seq<SavedItem> {
    seq(|items|, i requires 0 <= i < |items| => SaveItem(items[i]))
  }

  function LoadItems(items: seq<SavedItem>, channelId: string): seq<Item> {
    seq(|items|, i requires 0 <= i < |items| => LoadItem(items[i], channelId))
  }

  function SaveChannel(ch: Channel): SavedChannel {
    SavedChannel(ch.channelId, ch.name, ch.startSlot, ch.cursor, ch.autoPreserve,
                 ch.lastInscription, ch.curator, ch.synced, SaveItems(ch.items))
  }

  function LoadChannel(s: SavedChannel): Channel {
    Channel(s.channelId, s.name, s.startSlot, s.cursor, s.lastInscription, s.curator, s.synced, 0,
            s.autoPreserve, NO_STATS, LoadItems(s.items, s.channelId))
  }

  function SaveAll(channels: map<string, Channel>): Snapshot {
    map k | k in channels :: SaveChannel(channels[k])
  }

  // A record without a channel id is dropped.
  function LoadAll(s: Snapshot): map<string, Channel> {
    map k | k in s && k != "" :: LoadChannel(s[k])
  }

  lemma RecordsWithoutIdAreDropped(s: Snapshot)
    ensures LoadAll(s).Keys == s.Keys - {""}
    ensures forall k | k in LoadAll(s) :: LoadAll(s)[k].channelId == s[k].channelId && LoadAll(s)[k].cursor == s[k].cursor
  {
  }

  // ----- loading what was saved is a normalisation -----

  // The item a restart leaves: preserve state reset, transient progress gone, reference derived if missing.
  function Normalized(c: Item, channelId: string): Item {
    Rederived(c).(state := ResetState(c.state), progress := 0, channelId := channelId)
  }

  lemma ItemRoundTrip(c: Item, channelId: string)
    ensures LoadItem(SaveItem(c), channelId) == Normalized(c, channelId)
  {
  }

  // Save then load keeps every channel, its cursor and start slot, and its items in order; it changes an
  // item exactly as `Normalized` says and clears only the transient fields of the channel.
  lemma ChannelRoundTrip(ch: Channel)
    ensures var ch' := LoadChannel(SaveChannel(ch));
            && |ch'.items| == |ch.items|
            && (forall i | 0 <= i < |ch.items| :: ch'.items[i] == Normalized(ch.items[i], ch.channelId))
            && ch' == ch.(items := ch'.items, lastLibSlot := 0, lastScan := NO_STATS)
  {
  }

  lemma NormalizedTwice(c: Item, channelId: string)
    ensures Normalized(Normalized(c, channelId), channelId) == Normalized(c, channelId)
  {
    Labels.NoIdNoFile(c.cid, c.display.title);
  }

  // A second restart changes nothing.
  lemma RestartTwice(channels: map<string, Channel>)
    requires forall k | k in channels :: k != ""
    ensures var once := LoadAll(SaveAll(channels)); LoadAll(SaveAll(once)) == once
    ensures LoadAll(SaveAll(channels)).Keys == channels.Keys
  {
    var once := LoadAll(SaveAll(channels));
    assert forall k | k in once :: once[k] == LoadChannel(SaveChannel(channels[k]));
    forall k | k in once ensures LoadChannel(SaveChannel(once[k])) == once[k] {
      ChannelTwice(channels[k]);
    }
    var twice := LoadAll(SaveAll(once));
    assert twice.Keys == once.Keys;
    assert forall k | k in once :: twice[k] == once[k];
  }

  lemma ChannelTwice(ch: Channel)
    ensures var once := LoadChannel(SaveChannel(ch)); LoadChannel(SaveChannel(once)) == once
  {
    var once := LoadChannel(SaveChannel(ch));
    var twice := LoadChannel(SaveChannel(once));
    ChannelRoundTrip(ch);
    ChannelRoundTrip(once);
    forall i | 0 <= i < |ch.items| ensures twice.items[i] == once.items[i] {
      NormalizedTwice(ch.items[i], ch.channelId);
    }
    assert twice.items == once.items;
  }

  // The states a restart changes are exactly mirroring and error.
  lemma ResetExactly(s: ItemState)
    ensures ResetState(s) != s <==> s == Mirroring || s == Failed
  {
  }

  // A restart does not touch what an item is apart from its preserve state.
  lemma EssencesSurvive(ch: Channel)
    requires forall c | c in ch.items :: c.channelId == ch.channelId
    ensures Essences(LoadChannel(SaveChannel(ch)).items) == Essences(ch.items)
  {
    var items' := LoadChannel(SaveChannel(ch)).items;
    ChannelRoundTrip(ch);
    forall i | 0 <= i < |ch.items| ensures Essence(items'[i]) == Essence(ch.items[i]) {
      var c := ch.items[i];
      assert c in ch.items;
      assert items'[i] == Normalized(c, ch.channelId);
      Labels.NoIdNoFile(c.cid, c.display.title);
    }
  }
}
