/** What the rows of a channel that agrees with the chain say: each is read off an inscription among the covered
    slots, each inscription there has its row, and the newest slot and the curator are those of the rows. */
module ScanRows {
  import opened Basics
  import opened Inscriptions
  import opened Channels
  import opened ScanRuns
  import opened ScanResults

  lemma {:induction false} SliceIs(chain: seq<Block>, lo: int, hi: int)
    ensures forall b :: b in Slice(chain, lo, hi) <==> b in chain && lo <= b.slot < hi
  {
    if chain != [] {
      var n := |chain| - 1;
      SliceIs(chain[..n], lo, hi);
      assert chain == chain[..n] + [chain[n]];
    }
  }

  // The k-th operation of the i-th transaction of `b`, a block of the covered slots, inscribes on the channel.
  predicate Inscribes(chain: seq<Block>, ch: Channel, b: Block, i: nat, k: nat) {
    && b in chain && ch.startSlot <= b.slot < NextSlot(ch)
    && i < |b.txs| && k < |b.txs[i].ops| && b.txs[i].ops[k].opcode == INSCRIBE_OPCODE
    && Preservable(b.txs[i].ops[k], ch.channelId)
  }

  function Covered(chain: seq<Block>, ch: Channel): seq<Block> {
    Slice(chain, ch.startSlot, NextSlot(ch))
  }

  function Rows(chain: seq<Block>, ch: Channel): seq<Item> {
    Decode(chain, ch.channelId, ch.startSlot, NextSlot(ch))
  }

  lemma RowIsInscribed(chain: seq<Block>, ch: Channel, n: nat) returns (b: Block, i: nat, k: nat)
    requires n < |Rows(chain, ch)|
    ensures Inscribes(chain, ch, b, i, k) && Describes(Rows(chain, ch)[n], ch.channelId, b, i, b.txs[i].ops[k])
  {
    hide Slice, Matches, Inscribed, Describes, Preservable;
    var blocks, lib := Covered(chain, ch), NextSlot(ch) - 1;
    RowsReadOff(blocks, ch.channelId, lib);
    var ps: seq<Place> :| RowsAt(blocks, ch.channelId, lib, Rows(chain, ch), ps) &&
              forall p :: p in ps <==> InscribesAt(blocks, lib, p) && Preservable(OpAt(blocks, p), ch.channelId);
    var p := ps[n];
    assert p in ps;
    SliceIs(chain, ch.startSlot, NextSlot(ch));
    assert blocks[p.block] in blocks;
    b, i, k := blocks[p.block], p.tx, p.op;
  }

  lemma InscribedIsRow(chain: seq<Block>, ch: Channel, b: Block, i: nat, k: nat) returns (n: nat)
    requires Inscribes(chain, ch, b, i, k)
    ensures n < |Rows(chain, ch)| && Describes(Rows(chain, ch)[n], ch.channelId, b, i, b.txs[i].ops[k])
  {
    hide Slice, Matches, Inscribed, Describes, Preservable;
    var blocks, lib := Covered(chain, ch), NextSlot(ch) - 1;
    RowsReadOff(blocks, ch.channelId, lib);
    var ps: seq<Place> :| RowsAt(blocks, ch.channelId, lib, Rows(chain, ch), ps) &&
              forall p :: p in ps <==> InscribesAt(blocks, lib, p) && Preservable(OpAt(blocks, p), ch.channelId);
    SliceIs(chain, ch.startSlot, NextSlot(ch));
    var m :| 0 <= m < |blocks| && blocks[m] == b;
    assert Place(m, i, k) in ps;
    n :| 0 <= n < |ps| && ps[n] == Place(m, i, k);
  }

  // The rows of a channel, but for their preserve state and a reference derived once more.
  predicate SameRow(c: Item, row: Item) {
    Essence(c) == Essence(row)
  }

  lemma SameFields(c: Item, row: Item)
    requires SameRow(c, row)
    ensures c.id == row.id && c.display == row.display && c.channelId == row.channelId && c.cid == row.cid
    ensures c.inscribedAtSlot == row.inscribedAtSlot && c.txHash == row.txHash && c.blockHash == row.blockHash
    ensures c.txIndex == row.txIndex && c.curator == row.curator
  {
  }

  lemma ItemIsRow(chain: seq<Block>, ch: Channel, n: nat) returns (m: nat)
    requires Agrees(chain, ch) && n < |ch.items|
    ensures m < |Rows(chain, ch)| && SameRow(ch.items[n], Rows(chain, ch)[m])
  {
    hide Essence, Decode;
    var first := FirstById(Rows(chain, ch));
    FirstByIdFrom(Rows(chain, ch));
    SameIds(ch.items, first);
    assert Essences(ch.items)[n] == Essences(first)[n];
    assert first[n] in first;
    m :| 0 <= m < |Rows(chain, ch)| && Rows(chain, ch)[m] == first[n];
  }

  // The item is what that operation inscribes.
  ghost predicate ReadAt(chain: seq<Block>, ch: Channel, c: Item, b: Block, i: nat, k: nat) {
    && Inscribes(chain, ch, b, i, k)
    && exists row :: Describes(row, ch.channelId, b, i, b.txs[i].ops[k]) && SameRow(c, row)
  }

  // Every item of an agreeing channel was inscribed in the covered slots, and says so: its slot and block, its
  // transaction and the index of that, its signer, and what the manifest names.
  lemma EveryItemIsInscribed(chain: seq<Block>, ch: Channel, n: nat)
    requires Agrees(chain, ch) && n < |ch.items|
    ensures exists b, i: nat, k: nat :: ReadAt(chain, ch, ch.items[n], b, i, k)
  {
    hide Agrees, ReadAt;
    var b, i, k := InscribedItem(chain, ch, n);
  }

  // And every inscription of a preservable item in the covered slots has an item with the id of its row.
  lemma EveryInscriptionHasItsItem(chain: seq<Block>, ch: Channel, b: Block, i: nat, k: nat)
    requires Agrees(chain, ch) && Inscribes(chain, ch, b, i, k)
    ensures exists row :: Describes(row, ch.channelId, b, i, b.txs[i].ops[k]) && HasId(ch.items, row.id)
  {
    hide Describes, Decode, FirstById, Preservable;
    var n := InscribedIsRow(chain, ch, b, i, k);
    var row := Rows(chain, ch)[n];
    FirstByIdKeepsIds(Rows(chain, ch), row.id);
    SameHasId(ch.items, FirstById(Rows(chain, ch)), row.id);
  }

  lemma {:induction false} MaxSlotIs(items: seq<Item>)
    requires forall c | c in items :: c.inscribedAtSlot >= 0
    ensures forall c | c in items :: c.inscribedAtSlot <= MaxSlot(0, items)
    ensures if items == [] then MaxSlot(0, items) == 0 else exists c | c in items :: c.inscribedAtSlot == MaxSlot(0, items)
  {
    if items != [] {
      var n := |items| - 1;
      assert items == items[..n] + [items[n]];
      MaxSlotIs(items[..n]);
      assert items[n] in items;
      if MaxSlot(0, items[..n]) > items[n].inscribedAtSlot {
        var c :| c in items[..n] && c.inscribedAtSlot == MaxSlot(0, items[..n]);
        assert c in items;
      }
    }
  }

  // The newest inscription of a channel is the largest slot of a block that holds one of its items, and its
  // curator is who signed the last of them.
  lemma NewestIsARow(chain: seq<Block>, ch: Channel)
    requires Agrees(chain, ch)
    ensures ch.items == [] ==> ch.lastInscription == 0 && ch.curator == ""
    ensures ch.items != [] ==>
              exists c, b, i: nat, k: nat ::
                c in ch.items && ReadAt(chain, ch, c, b, i, k) && ch.lastInscription == b.slot
    ensures ch.items != [] ==>
              exists b, i: nat, k: nat ::
                ReadAt(chain, ch, ch.items[|ch.items| - 1], b, i, k) && ch.curator == b.txs[i].ops[k].signer
    ensures forall c | c in ch.items :: c.inscribedAtSlot <= ch.lastInscription
  {
    hide ReadAt, Decode, Essences;
    forall c | c in ch.items ensures c.inscribedAtSlot >= 0 {
      var n :| 0 <= n < |ch.items| && ch.items[n] == c;
      var b, i, k := InscribedItem(chain, ch, n);
    }
    MaxSlotIs(ch.items);
    if ch.items != [] {
      var c :| c in ch.items && c.inscribedAtSlot == MaxSlot(0, ch.items);
      var n :| 0 <= n < |ch.items| && ch.items[n] == c;
      var b, i, k := InscribedItem(chain, ch, n);
      var b', i', k' := InscribedItem(chain, ch, |ch.items| - 1);
    }
  }

  lemma InscribedItem(chain: seq<Block>, ch: Channel, n: nat) returns (b: Block, i: nat, k: nat)
    requires Agrees(chain, ch) && n < |ch.items|
    ensures ReadAt(chain, ch, ch.items[n], b, i, k)
    ensures i < |b.txs| && k < |b.txs[i].ops|
    ensures ch.items[n].inscribedAtSlot == b.slot && ch.items[n].curator == b.txs[i].ops[k].signer
  {
    hide Agrees, Essence, Decode;
    var m := ItemIsRow(chain, ch, n);
    b, i, k := RowIsInscribed(chain, ch, m);
    SameFields(ch.items[n], Rows(chain, ch)[m]);
  }
}
