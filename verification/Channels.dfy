/** One followed channel: its record, the merge of a scanned page into it, and what its items stand for
    (src/lez_client.cpp, the page handler of scanNextPage). */
module Channels {
  import opened Basics
  import opened Inscriptions
  import Labels

  datatype Channel = Channel(
    channelId: string, name: string, startSlot: int, cursor: int, lastInscription: int, curator: string,
    synced: bool, lastLibSlot: int, autoPreserve: bool, lastScan: ScanStats, items: seq<Item>)

  function NewChannel(channelId: string, startSlot: int): Channel {
    Channel(channelId, "", startSlot, 0, 0, "", false, 0, false, NO_STATS, [])
  }

  // The first slot no page has covered yet.
  function NextSlot(ch: Channel): int {
    if ch.cursor > 0 then ch.cursor + 1 else ch.startSlot
  }

  // ----- one row per item id -----

  predicate HasId(items: seq<Item>, id: string) {
    exists i | 0 <= i < |items| :: items[i].id == id
  }

  // The items of `found` whose id occurs at no earlier position.
  function FirstById(found: seq<Item>): seq<Item> {
    if found == [] then []
    else
      var init, last := found[..|found| - 1], found[|found| - 1];
      FirstById(init) + if HasId(init, last.id) then [] else [last]
  }

  // `items` with those of `found` appended, in turn, whose id is not there yet.
  function Merge(items: seq<Item>, found: seq<Item>): (r: seq<Item>)
    ensures |items| <= |r|
  {
    if found == [] then items
    else
      var r := Merge(items, found[..|found| - 1]);
      var last := found[|found| - 1];
      if HasId(r, last.id) then r else r + [last]
  }

  // ----- the chain -----

  predicate Ordered(chain: seq<Block>) {
    forall i, j | 0 <= i < j < |chain| :: chain[i].slot <= chain[j].slot
  }

  // The blocks with lo <= slot < hi.
  function Slice(chain: seq<Block>, lo: int, hi: int): seq<Block> {
    if chain == [] then []
    else
      var last := chain[|chain| - 1];
      Slice(chain[..|chain| - 1], lo, hi) + if lo <= last.slot < hi then [last] else []
  }

  // The inscribe operations with lo <= slot < hi, and the items one decode of them finds.
  function OpsIn(chain: seq<Block>, lo: int, hi: int): seq<Located> {
    Inscribed(Slice(chain, lo, hi), hi - 1)
  }

  function Decode(chain: seq<Block>, channelId: string, lo: int, hi: int): seq<Item> {
    Matches(OpsIn(chain, lo, hi), channelId)
  }

  lemma {:induction false} SliceInside(chain: seq<Block>, lo: int, hi: int)
    ensures forall b | b in Slice(chain, lo, hi) :: lo <= b.slot < hi
  {
    if chain != [] {
      SliceInside(chain[..|chain| - 1], lo, hi);
    }
  }

  lemma {:induction false} SliceBeyond(chain: seq<Block>, lo: int, hi: int)
    requires forall b | b in chain :: b.slot < lo
    ensures Slice(chain, lo, hi) == []
  {
    if chain != [] {
      SliceBeyond(chain[..|chain| - 1], lo, hi);
    }
  }

  lemma {:induction false} SliceEmpty(chain: seq<Block>, lo: int)
    ensures Slice(chain, lo, lo) == []
  {
    if chain != [] {
      SliceEmpty(chain[..|chain| - 1], lo);
    }
  }

  lemma {:induction false} SliceJoin(chain: seq<Block>, lo: int, mid: int, hi: int)
    requires Ordered(chain) && lo <= mid <= hi
    ensures Slice(chain, lo, mid) + Slice(chain, mid, hi) == Slice(chain, lo, hi)
  {
    if chain != [] {
      var n := |chain| - 1;
      var slot := chain[n].slot;
      SliceJoin(chain[..n], lo, mid, hi);
      var a, b := Slice(chain[..n], lo, mid), Slice(chain[..n], mid, hi);
      if slot < mid {
        SliceBeyond(chain[..n], mid, hi);
        assert Slice(chain, mid, hi) == b == [];
      } else {
        assert Slice(chain, lo, mid) == a;
        assert slot < hi ==> a + (b + [chain[n]]) == a + b + [chain[n]];
      }
    }
  }

  lemma InscribedJoin(a: seq<Block>, b: seq<Block>, mid: int, hi: int)
    requires mid <= hi && forall x | x in a :: x.slot < mid
    ensures Inscribed(a + b, hi - 1) == Inscribed(a, mid - 1) + Inscribed(b, hi - 1)
  {
    InscribedAppend(a, b, hi - 1);
    BoundIrrelevant(a, mid - 1, hi - 1);
  }

  lemma OpsJoin(chain: seq<Block>, lo: int, mid: int, hi: int)
    requires Ordered(chain) && lo <= mid <= hi
    ensures OpsIn(chain, lo, hi) == OpsIn(chain, lo, mid) + OpsIn(chain, mid, hi)
  {
    SliceJoin(chain, lo, mid, hi);
    SliceInside(chain, lo, mid);
    InscribedJoin(Slice(chain, lo, mid), Slice(chain, mid, hi), mid, hi);
  }

  lemma DecodeJoin(chain: seq<Block>, channelId: string, lo: int, mid: int, hi: int)
    requires Ordered(chain) && lo <= mid <= hi
    ensures Decode(chain, channelId, lo, hi) == Decode(chain, channelId, lo, mid) + Decode(chain, channelId, mid, hi)
  {
    OpsJoin(chain, lo, mid, hi);
    MatchesAppend(OpsIn(chain, lo, mid), OpsIn(chain, mid, hi), channelId);
  }

  // ----- an item without its preserve state -----

  // What loading does to the Internet Archive reference: derive it again when it is empty.
  function Rederived(c: Item): Item {
    if c.iaId != "" then c
    else
      var ref := Labels.DeriveIaRef(c.cid, c.display.title);
      c.(iaId := ref.id, iaFile := ref.file)
  }

  function Essence(c: Item): Item {
    Rederived(c).(state := Available, progress := 0, storedCids := [])
  }

  function Essences(items: seq<Item>): seq<Item> {
    seq(|items|, i requires 0 <= i < |items| => Essence(items[i]))
  }

  lemma EssenceKeeps(c: Item)
    ensures Essence(c).id == c.id && Essence(c).inscribedAtSlot == c.inscribedAtSlot
    ensures Essence(c).curator == c.curator && Essence(c).channelId == c.channelId
  {
  }

  lemma SameIds(a: seq<Item>, b: seq<Item>)
    requires Essences(a) == Essences(b)
    ensures |a| == |b| && forall i | 0 <= i < |a| :: a[i].id == b[i].id
  {
    assert |Essences(a)| == |a| && |Essences(b)| == |b|;
    forall i | 0 <= i < |a| ensures a[i].id == b[i].id {
      assert Essences(a)[i] == Essence(a[i]) && Essences(b)[i] == Essence(b[i]);
      EssenceKeeps(a[i]);
      EssenceKeeps(b[i]);
    }
  }

  lemma SameHasId(a: seq<Item>, b: seq<Item>, id: string)
    requires Essences(a) == Essences(b)
    ensures HasId(a, id) <==> HasId(b, id)
  {
    SameIds(a, b);
  }

  // ----- merging is deduplication -----

  lemma {:induction false} FirstByIdKeepsIds(found: seq<Item>, id: string)
    ensures HasId(FirstById(found), id) <==> HasId(found, id)
  {
    if found != [] {
      var n := |found| - 1;
      var init, last, r := found[..n], found[n], FirstById(found);
      var before := FirstById(init);
      FirstByIdKeepsIds(init, id);
      if HasId(before, id) {
        var i :| 0 <= i < |before| && before[i].id == id;
        assert r[i] == before[i];
        var k :| 0 <= k < |init| && init[k].id == id;
        assert found[k] == init[k];
      } else if last.id == id {
        assert !HasId(init, id);
        assert r[|before|] == last && found[n] == last;
      } else {
        assert forall i | 0 <= i < |found| :: found[i] == if i < n then init[i] else last;
        assert forall i | 0 <= i < |r| :: r[i] == if i < |before| then before[i] else last;
      }
    }
  }

  lemma {:induction false} MergeIsFirstById(a: seq<Item>, b: seq<Item>)
    ensures Merge(FirstById(a), b) == FirstById(a + b)
  {
    if b == [] {
      assert a + b == a;
    } else {
      var n := |b| - 1;
      assert (a + b)[..|a| + n] == a + b[..n];
      MergeIsFirstById(a, b[..n]);
      FirstByIdKeepsIds(a + b[..n], b[n].id);
    }
  }

  lemma {:induction false} MergeOfEssences(x: seq<Item>, y: seq<Item>, found: seq<Item>)
    requires Essences(x) == Essences(y)
    ensures Essences(Merge(x, found)) == Essences(Merge(y, found))
  {
    if found != [] {
      var n := |found| - 1;
      MergeOfEssences(x, y, found[..n]);
      var a, b := Merge(x, found[..n]), Merge(y, found[..n]);
      SameHasId(a, b, found[n].id);
      EssencesAppend(a, found[n]);
      EssencesAppend(b, found[n]);
    }
  }

  lemma EssencesAppend(a: seq<Item>, c: Item)
    ensures Essences(a + [c]) == Essences(a) + [Essence(c)]
  {
  }

  lemma {:induction false} MergeExtends(items: seq<Item>, found: seq<Item>)
    ensures |items| <= |Merge(items, found)| <= |items| + |found|
    ensures Merge(items, found)[..|items|] == items
  {
    if found != [] {
      var n := |found| - 1;
      MergeExtends(items, found[..n]);
      assert Merge(items, found)[..|items|] == Merge(items, found[..n])[..|items|];
    }
  }

  // ----- a page -----

  function MaxSlot(base: int, items: seq<Item>): int {
    if items == [] then base else Max(MaxSlot(base, items[..|items| - 1]), items[|items| - 1].inscribedAtSlot)
  }

  function LastCurator(base: string, items: seq<Item>): string {
    if items == [] then base else items[|items| - 1].curator
  }

  function Ids(items: seq<Item>): seq<string> {
    seq(|items|, i requires 0 <= i < |items| => items[i].id)
  }

  function AddPage(total: ScanStats, page: ScanStats, added: int, slots: int): ScanStats {
    total.(scannedSlots := total.scannedSlots + slots,
           pages := total.pages + 1,
           matched := total.matched + added,
           notFinalized := total.notFinalized + page.notFinalized,
           notJson := total.notJson + page.notJson,
           oversized := total.oversized + page.oversized,
           noCid := total.noCid + page.noCid,
           duplicate := total.duplicate + page.matched - added,
           otherChannel := total.otherChannel + page.otherChannel)
  }

  function Found(ch: Channel, blocks: seq<Block>, lib: int): seq<Item> {
    Matches(Inscribed(blocks, lib), ch.channelId)
  }

  function PageStats(ch: Channel, blocks: seq<Block>, lib: int): ScanStats {
    StatsOf(TallyOf(Inscribed(blocks, lib), ch.channelId), NotFinalized(blocks, lib))
  }

  // The items a page adds to a channel.
  function Added(items: seq<Item>, found: seq<Item>): seq<Item> {
    Merge(items, found)[|items|..]
  }

  // The channel after the page of slots from..to, which held the items `found`, has been merged into it.
  function MergePage(ch: Channel, found: seq<Item>, page: ScanStats, from: int, to: int): Channel {
    var added := Added(ch.items, found);
    ch.(items := Merge(ch.items, found),
        lastInscription := MaxSlot(ch.lastInscription, added),
        curator := LastCurator(ch.curator, added),
        cursor := to,
        lastScan := AddPage(ch.lastScan, page, |added|, to - from + 1))
  }

  // ----- the loop of the page handler -----

  method AlreadyThere(items: seq<Item>, id: string) returns (dup: bool)
    ensures dup == HasId(items, id)
  {
    for i := 0 to |items|
      invariant forall k | 0 <= k < i :: items[k].id != id
    {
      if items[i].id == id {
        return true;
      }
    }
    return false;
  }

  method MergeFound(ch: Channel, found: seq<Item>, pageStats: ScanStats)
    returns (ch': Channel, pageStats': ScanStats, newIds: seq<string>)
    ensures var added := Added(ch.items, found);
            && ch' == ch.(items := Merge(ch.items, found),
                          lastInscription := MaxSlot(ch.lastInscription, added),
                          curator := LastCurator(ch.curator, added))
            && pageStats' == pageStats.(matched := pageStats.matched - (|found| - |added|),
                                        duplicate := pageStats.duplicate + (|found| - |added|))
            && newIds == Ids(added)
  {
    hide Merge, Added, MaxSlot, LastCurator, Ids, HasId;
    ch', pageStats', newIds := ch, pageStats, [];
    MergeNone(ch);
    for n := 0 to |found|
      invariant ch'.items == Merge(ch.items, found[..n])
      invariant ch'.lastInscription == MaxSlot(ch.lastInscription, Added(ch.items, found[..n]))
      invariant ch'.curator == LastCurator(ch.curator, Added(ch.items, found[..n]))
      invariant ch' == ch.(items := ch'.items, lastInscription := ch'.lastInscription, curator := ch'.curator)
      invariant pageStats'.matched == pageStats.matched - (n - |Added(ch.items, found[..n])|)
      invariant pageStats'.duplicate == pageStats.duplicate + (n - |Added(ch.items, found[..n])|)
      invariant pageStats' == pageStats.(matched := pageStats'.matched, duplicate := pageStats'.duplicate)
      invariant newIds == Ids(Added(ch.items, found[..n]))
    {
      var c := found[n];
      MergeOne(ch, found, n);
      var dup := AlreadyThere(ch'.items, c.id);
      if dup {
        pageStats' := pageStats'.(duplicate := pageStats'.duplicate + 1, matched := pageStats'.matched - 1);
        continue;
      }
      ch' := ch'.(items := ch'.items + [c],
                  lastInscription := Max(ch'.lastInscription, c.inscribedAtSlot),
                  curator := c.curator);
      newIds := newIds + [c.id];
    }
    assert found[..|found|] == found;
  }

  lemma MergeNone(ch: Channel)
    ensures forall found: seq<Item> ::
              Merge(ch.items, found[..0]) == ch.items && Added(ch.items, found[..0]) == []
    ensures Ids([]) == [] && MaxSlot(ch.lastInscription, []) == ch.lastInscription && LastCurator(ch.curator, []) == ch.curator
  {
  }

  // What one more item found does to the merge and to everything read off the items added.
  lemma MergeOne(ch: Channel, found: seq<Item>, n: nat)
    requires n < |found|
    ensures var before, added, c := Merge(ch.items, found[..n]), Added(ch.items, found[..n]), found[n];
            && Merge(ch.items, found[..n + 1]) == (if HasId(before, c.id) then before else before + [c])
            && Added(ch.items, found[..n + 1]) == (if HasId(before, c.id) then added else added + [c])
            && Ids(added + [c]) == Ids(added) + [c.id]
            && MaxSlot(ch.lastInscription, added + [c]) == Max(MaxSlot(ch.lastInscription, added), c.inscribedAtSlot)
            && LastCurator(ch.curator, added + [c]) == c.curator
  {
    hide HasId;
    assert found[..n + 1][..n] == found[..n];
    var added, c := Added(ch.items, found[..n]), found[n];
    assert (added + [c])[..|added|] == added;
  }

  // ----- what a channel's record stands for -----

  // The channel's items are what one decode of all the slots covered so far finds, one row per id in
  // order of first occurrence, whatever the preserve machinery did to their states since.
  ghost predicate Agrees(chain: seq<Block>, ch: Channel) {
    && 0 <= ch.startSlot && 0 <= ch.cursor && (ch.cursor > 0 ==> ch.startSlot <= ch.cursor)
    && Essences(ch.items) == Essences(FirstById(Decode(chain, ch.channelId, ch.startSlot, NextSlot(ch))))
    && ch.lastInscription == MaxSlot(0, ch.items)
    && ch.curator == LastCurator("", ch.items)
  }

  // The first slot the last scan covered.
  function ScanStart(ch: Channel): int {
    NextSlot(ch) - ch.lastScan.scannedSlots
  }

  // The counters of the last scan are the exact counts over the operations of the slots it covered.
  ghost predicate CountsAgree(chain: seq<Block>, ch: Channel) {
    && ch.startSlot <= ScanStart(ch) <= NextSlot(ch)
    && var t := TallyOf(OpsIn(chain, ScanStart(ch), NextSlot(ch)), ch.channelId);
       var s := ch.lastScan;
       && s.matched + s.duplicate == t.matched
       && s.otherChannel == t.other
       && s.oversized == t.oversized
       && s.notJson == t.notJson
       && s.noCid == t.noCid
       && s.notFinalized == 0
       && |ch.items| == |FirstById(Decode(chain, ch.channelId, ch.startSlot, ScanStart(ch)))| + s.matched
  }

  lemma {:induction false} MaxSlotAppend(base: int, a: seq<Item>, b: seq<Item>)
    ensures MaxSlot(base, a + b) == MaxSlot(MaxSlot(base, a), b)
  {
    if b == [] {
      assert a + b == a;
    } else {
      var n := |b| - 1;
      assert (a + b)[..|a| + n] == a + b[..n];
      MaxSlotAppend(base, a, b[..n]);
    }
  }

  lemma MergeSplits(items: seq<Item>, found: seq<Item>)
    ensures Merge(items, found) == items + Added(items, found)
  {
    MergeExtends(items, found);
  }

  lemma ItemsAfterPage(chain: seq<Block>, items: seq<Item>, channelId: string, lo: int, mid: int, hi: int)
    requires Ordered(chain) && lo <= mid <= hi
    requires Essences(items) == Essences(FirstById(Decode(chain, channelId, lo, mid)))
    ensures Essences(Merge(items, Decode(chain, channelId, mid, hi))) == Essences(FirstById(Decode(chain, channelId, lo, hi)))
  {
    var before, found := Decode(chain, channelId, lo, mid), Decode(chain, channelId, mid, hi);
    DecodeJoin(chain, channelId, lo, mid, hi);
    MergeIsFirstById(before, found);
    MergeOfEssences(items, FirstById(before), found);
  }

  lemma NewestAfterPage(items: seq<Item>, found: seq<Item>)
    ensures MaxSlot(0, Merge(items, found)) == MaxSlot(MaxSlot(0, items), Added(items, found))
    ensures LastCurator("", Merge(items, found)) == LastCurator(LastCurator("", items), Added(items, found))
  {
    MergeSplits(items, found);
    MaxSlotAppend(0, items, Added(items, found));
  }

  lemma PageFinds(chain: seq<Block>, from: int, to: int, lib: int)
    requires to <= lib
    ensures var blocks := Slice(chain, from, to + 1);
            && Inscribed(blocks, lib) == OpsIn(chain, from, to + 1)
            && NotFinalized(blocks, lib) == 0
  {
    SliceInside(chain, from, to + 1);
    BoundIrrelevant(Slice(chain, from, to + 1), lib, to);
    AllFinalized(Slice(chain, from, to + 1), lib);
  }

  lemma PageAgrees(chain: seq<Block>, ch: Channel, found: seq<Item>, page: ScanStats, to: int)
    requires Ordered(chain) && Agrees(chain, ch) && NextSlot(ch) <= to && 0 < to
    requires found == Decode(chain, ch.channelId, NextSlot(ch), to + 1)
    ensures Agrees(chain, MergePage(ch, found, page, NextSlot(ch), to))
  {
    ItemsAfterPage(chain, ch.items, ch.channelId, ch.startSlot, NextSlot(ch), to + 1);
    NewestAfterPage(ch.items, found);
  }

  lemma TallyJoin(chain: seq<Block>, channelId: string, lo: int, mid: int, hi: int)
    requires Ordered(chain) && lo <= mid <= hi
    ensures TallyOf(OpsIn(chain, lo, hi), channelId)
         == Plus(TallyOf(OpsIn(chain, lo, mid), channelId), TallyOf(OpsIn(chain, mid, hi), channelId))
  {
    OpsJoin(chain, lo, mid, hi);
    TallyAppend(OpsIn(chain, lo, mid), OpsIn(chain, mid, hi), channelId);
  }

  lemma PageCountsAgree(chain: seq<Block>, ch: Channel, found: seq<Item>, page: ScanStats, to: int)
    requires Ordered(chain) && Agrees(chain, ch) && CountsAgree(chain, ch) && NextSlot(ch) <= to && 0 < to
    requires found == Decode(chain, ch.channelId, NextSlot(ch), to + 1)
    requires page == StatsOf(TallyOf(OpsIn(chain, NextSlot(ch), to + 1), ch.channelId), 0)
    ensures CountsAgree(chain, MergePage(ch, found, page, NextSlot(ch), to))
  {
    TallyJoin(chain, ch.channelId, ScanStart(ch), NextSlot(ch), to + 1);
    MergeSplits(ch.items, found);
    var ch' := MergePage(ch, found, page, NextSlot(ch), to);
    assert NextSlot(ch') == to + 1 && ScanStart(ch') == ScanStart(ch);
  }

  // The page handler, given the slice of the chain it asked for, keeps the agreement and the counts.
  lemma PageOfChain(chain: seq<Block>, ch: Channel, lib: int, to: int)
    requires Ordered(chain) && Agrees(chain, ch) && CountsAgree(chain, ch)
    requires NextSlot(ch) <= to <= lib && 0 < to
    ensures var blocks := Slice(chain, NextSlot(ch), to + 1);
            var ch' := MergePage(ch, Found(ch, blocks, lib), PageStats(ch, blocks, lib), NextSlot(ch), to);
            Agrees(chain, ch') && CountsAgree(chain, ch')
  {
    var blocks := Slice(chain, NextSlot(ch), to + 1);
    PageFinds(chain, NextSlot(ch), to, lib);
    PageAgrees(chain, ch, Found(ch, blocks, lib), PageStats(ch, blocks, lib), to);
    PageCountsAgree(chain, ch, Found(ch, blocks, lib), PageStats(ch, blocks, lib), to);
  }

  predicate UniqueIds(items: seq<Item>) {
    forall i, j | 0 <= i < j < |items| :: items[i].id != items[j].id
  }

  lemma {:induction false} FirstByIdUnique(found: seq<Item>)
    ensures UniqueIds(FirstById(found))
  {
    if found != [] {
      var init, last := found[..|found| - 1], found[|found| - 1];
      FirstByIdUnique(init);
      FirstByIdKeepsIds(init, last.id);
    }
  }

  // No channel ever shows two rows with the same id.
  lemma AgreesUnique(chain: seq<Block>, ch: Channel)
    requires Agrees(chain, ch)
    ensures UniqueIds(ch.items)
  {
    var found := Decode(chain, ch.channelId, ch.startSlot, NextSlot(ch));
    FirstByIdUnique(found);
    SameIds(ch.items, FirstById(found));
  }

  // Count conservation: every inscribe operation the scan covered went into exactly one counter.
  lemma CountsConserve(chain: seq<Block>, ch: Channel)
    requires CountsAgree(chain, ch)
    ensures var s := ch.lastScan;
            |OpsIn(chain, ScanStart(ch), NextSlot(ch))|
              == s.matched + s.duplicate + s.otherChannel + s.oversized + s.notJson + s.noCid
  {
    TallyConserves(OpsIn(chain, ScanStart(ch), NextSlot(ch)), ch.channelId);
  }
}
