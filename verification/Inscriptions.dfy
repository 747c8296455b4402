/** Decoding inscriptions out of blocks (src/lez_client.cpp, extractItems). JSON is already read: an
    inscription carries its byte size and, when it is a JSON object, the manifest inside it. */
module Inscriptions {
  import opened Basics
  import Labels

  const INSCRIBE_OPCODE := 17
  const MAX_INSCRIPTION_BYTES := 256 * 1024

  // What the metadata preference chains make of a manifest; kept abstract.
  datatype Display = Display(title: string, sizeBytes: int, items: int, thumbnail: string)

  // `labelId` is the id inside a label that is itself JSON, or "".
  datatype Manifest =
    Manifest(kind: string, id: string, cid: string, caption: string, labelId: string, display: Display)

  datatype Inscription = Inscription(size: nat, manifest: Option<Manifest>)

  datatype Op = Op(opcode: int, channelId: string, signer: string, inscription: Inscription)

  datatype Tx = Tx(hash: string, ops: seq<Op>)

  datatype Block = Block(slot: nat, id: string, txs: seq<Tx>)

  datatype ItemState = Available | Mirroring | Mirrored | Failed | Pending

  // No pin survives a restart, and an error is not a property of the item: both become available again.
  function ResetState(s: ItemState): ItemState {
    if s == Mirroring || s == Failed then Available else s
  }

  datatype Item = Item(
    id: string, display: Display, channelId: string, cid: string, inscribedAtSlot: int,
    txHash: string, blockHash: string, txIndex: int, curator: string,
    state: ItemState, progress: int, iaId: string, iaFile: string, storedCids: seq<string>)

  datatype ScanStats = ScanStats(
    scannedSlots: int, pages: int, matched: int, notFinalized: int, notJson: int, oversized: int,
    noCid: int, duplicate: int, otherChannel: int, oversizedBodies: int)

  const NO_STATS := ScanStats(0, 0, 0, 0, 0, 0, 0, 0, 0, 0)

  // ----- the inscriptions of a list of blocks -----

  // One inscribe operation with its place on the chain.
  datatype Located = Located(slot: nat, blockId: string, txHash: string, txIndex: nat, op: Op)

  function TxOps(b: Block, i: nat, k: nat): seq<Located>
    requires i < |b.txs| && k <= |b.txs[i].ops|
  {
    if k == 0 then []
    else
      var op := b.txs[i].ops[k - 1];
      TxOps(b, i, k - 1) +
      if op.opcode == INSCRIBE_OPCODE then [Located(b.slot, b.id, b.txs[i].hash, i, op)] else []
  }

  function BlockOps(b: Block, n: nat): seq<Located>
    requires n <= |b.txs|
  {
    if n == 0 then [] else BlockOps(b, n - 1) + TxOps(b, n - 1, |b.txs[n - 1].ops|)
  }

  // Every inscribe operation of the finalized blocks, in chain order.
  function Inscribed(blocks: seq<Block>, lib: int): seq<Located> {
    if blocks == [] then []
    else
      var last := blocks[|blocks| - 1];
      Inscribed(blocks[..|blocks| - 1], lib) + if last.slot > lib then [] else BlockOps(last, |last.txs|)
  }

  function NotFinalized(blocks: seq<Block>, lib: int): nat {
    if blocks == [] then 0
    else NotFinalized(blocks[..|blocks| - 1], lib) + if blocks[|blocks| - 1].slot > lib then 1 else 0
  }

  // ----- what becomes of one operation -----

  datatype Outcome = OtherChannel | Oversized | NotJson | NoCid | Match(item: Item)

  function KeeperId(man: Manifest, txHash: string): string {
    if man.id != "" then man.id else if man.labelId != "" then man.labelId else txHash
  }

  function KeeperRef(man: Manifest): Labels.IaRef {
    var ref := Labels.DeriveIaRef(man.cid, man.caption);
    if ref.id == "" && man.labelId != "" then ref.(id := man.labelId) else ref
  }

  function MakeItem(o: Located, channelId: string, man: Manifest, id: string, cid: string, ref: Labels.IaRef): Item {
    Item(id, man.display, channelId, cid, o.slot, o.txHash, o.blockId, o.txIndex, o.op.signer,
         Available, 0, ref.id, ref.file, [])
  }

  function Outcomes(o: Located, channelId: string): Outcome {
    if ToLower(o.op.channelId) != channelId then OtherChannel
    else if o.op.inscription.size > MAX_INSCRIPTION_BYTES then Oversized
    else
      match o.op.inscription.manifest
      case None => NotJson
      case Some(man) =>
        if man.kind == "ia_item" then
          if man.id == "" then NoCid
          else Match(MakeItem(o, channelId, man, man.id, "", Labels.IaRef(man.id, "")))
        else if man.cid == "" then NoCid
        else Match(MakeItem(o, channelId, man, KeeperId(man, o.txHash), man.cid, KeeperRef(man)))
  }

  function Matches(ops: seq<Located>, channelId: string): seq<Item> {
    if ops == [] then []
    else
      var r := Outcomes(ops[|ops| - 1], channelId);
      Matches(ops[..|ops| - 1], channelId) + if r.Match? then [r.item] else []
  }

  datatype Tally = Tally(matched: nat, other: nat, oversized: nat, notJson: nat, noCid: nat)

  const ZERO := Tally(0, 0, 0, 0, 0)

  function One(r: Outcome): Tally {
    match r
    case OtherChannel => ZERO.(other := 1)
    case Oversized => ZERO.(oversized := 1)
    case NotJson => ZERO.(notJson := 1)
    case NoCid => ZERO.(noCid := 1)
    case Match(_) => ZERO.(matched := 1)
  }

  function Plus(a: Tally, b: Tally): Tally {
    Tally(a.matched + b.matched, a.other + b.other, a.oversized + b.oversized, a.notJson + b.notJson, a.noCid + b.noCid)
  }

  function TallyOf(ops: seq<Located>, channelId: string): Tally {
    if ops == [] then ZERO
    else Plus(TallyOf(ops[..|ops| - 1], channelId), One(Outcomes(ops[|ops| - 1], channelId)))
  }

  function StatsOf(t: Tally, notFinalized: int): ScanStats {
    ScanStats(0, 0, t.matched, notFinalized, t.notJson, t.oversized, t.noCid, 0, t.other, 0)
  }

  // ----- where a row stands on the chain and what it says -----

  // A position in the input: the op-th operation of the tx-th transaction of a block.
  datatype Place = Place(block: nat, tx: nat, op: nat)

  predicate InInput(blocks: seq<Block>, p: Place) {
    p.block < |blocks| && p.tx < |blocks[p.block].txs| && p.op < |blocks[p.block].txs[p.tx].ops|
  }

  function OpAt(blocks: seq<Block>, p: Place): Op
    requires InInput(blocks, p)
  {
    blocks[p.block].txs[p.tx].ops[p.op]
  }

  // A finalized inscribe operation.
  predicate InscribesAt(blocks: seq<Block>, lib: int, p: Place) {
    InInput(blocks, p) && OpAt(blocks, p).opcode == INSCRIBE_OPCODE && blocks[p.block].slot <= lib
  }

  predicate Before(p: Place, q: Place) {
    || p.block < q.block
    || (p.block == q.block && (p.tx < q.tx || (p.tx == q.tx && p.op < q.op)))
  }

  predicate Increasing(ps: seq<Place>) {
    forall i, j | 0 <= i < j < |ps| :: Before(ps[i], ps[j])
  }

  // The located operation says where it stands.
  predicate StandsAt(blocks: seq<Block>, o: Located, p: Place) {
    && InInput(blocks, p) && o.op == OpAt(blocks, p)
    && o.slot == blocks[p.block].slot && o.blockId == blocks[p.block].id
    && o.txHash == blocks[p.block].txs[p.tx].hash && o.txIndex == p.tx
  }

  predicate Standing(blocks: seq<Block>, ops: seq<Located>, ps: seq<Place>) {
    |ps| == |ops| && Increasing(ps) && forall i | 0 <= i < |ps| :: StandsAt(blocks, ops[i], ps[i])
  }

  lemma StandingJoin(blocks: seq<Block>, a: seq<Located>, ps: seq<Place>, b: seq<Located>, qs: seq<Place>)
    requires Standing(blocks, a, ps) && Standing(blocks, b, qs)
    requires forall p, q | p in ps && q in qs :: Before(p, q)
    ensures Standing(blocks, a + b, ps + qs)
  {
    hide StandsAt, Before;
    var rs := ps + qs;
    forall i, j | 0 <= i < j < |rs| ensures Before(rs[i], rs[j]) {
      assert i < |ps| <= j ==> rs[i] in ps && rs[j] in qs;
    }
    forall i | 0 <= i < |rs| ensures StandsAt(blocks, (a + b)[i], rs[i]) {
    }
  }

  // The places of the first k operations of a transaction; of the first n transactions of a block; of all
  // finalized blocks before the m-th.
  lemma {:induction false} TxPlaces(blocks: seq<Block>, m: nat, i: nat, k: nat) returns (ps: seq<Place>)
    requires m < |blocks| && i < |blocks[m].txs| && k <= |blocks[m].txs[i].ops|
    ensures Standing(blocks, TxOps(blocks[m], i, k), ps)
    ensures forall p :: p in ps <==> p.block == m && p.tx == i && p.op < k &&
                                     blocks[m].txs[i].ops[p.op].opcode == INSCRIBE_OPCODE
  {
    ps := [];
    if k > 0 {
      ps := TxPlaces(blocks, m, i, k - 1);
      var b := blocks[m];
      if b.txs[i].ops[k - 1].opcode == INSCRIBE_OPCODE {
        var o := Located(b.slot, b.id, b.txs[i].hash, i, b.txs[i].ops[k - 1]);
        StandingJoin(blocks, TxOps(b, i, k - 1), ps, [o], [Place(m, i, k - 1)]);
        ps := ps + [Place(m, i, k - 1)];
      } else {
        assert TxOps(b, i, k) == TxOps(b, i, k - 1);
      }
    }
  }

  lemma {:induction false} BlockPlaces(blocks: seq<Block>, m: nat, n: nat) returns (ps: seq<Place>)
    requires m < |blocks| && n <= |blocks[m].txs|
    ensures Standing(blocks, BlockOps(blocks[m], n), ps)
    ensures forall p :: p in ps <==> InInput(blocks, p) && p.block == m && p.tx < n &&
                                     OpAt(blocks, p).opcode == INSCRIBE_OPCODE
  {
    ps := [];
    if n > 0 {
      hide Standing;
      var before := BlockPlaces(blocks, m, n - 1);
      var last := TxPlaces(blocks, m, n - 1, |blocks[m].txs[n - 1].ops|);
      StandingJoin(blocks, BlockOps(blocks[m], n - 1), before, TxOps(blocks[m], n - 1, |blocks[m].txs[n - 1].ops|), last);
      ps := before + last;
    }
  }

  lemma {:induction false} InscribedPlaces(blocks: seq<Block>, lib: int, m: nat) returns (ps: seq<Place>)
    requires m <= |blocks|
    ensures Standing(blocks, Inscribed(blocks[..m], lib), ps)
    ensures forall p :: p in ps <==> InscribesAt(blocks, lib, p) && p.block < m
  {
    ps := [];
    if m > 0 {
      assert blocks[..m][..m - 1] == blocks[..m - 1];
      var before := InscribedPlaces(blocks, lib, m - 1);
      if blocks[m - 1].slot > lib {
        ps := before;
        assert Inscribed(blocks[..m], lib) == Inscribed(blocks[..m - 1], lib);
      } else {
        hide Standing;
        var last := BlockPlaces(blocks, m - 1, |blocks[m - 1].txs|);
        StandingJoin(blocks, Inscribed(blocks[..m - 1], lib), before, BlockOps(blocks[m - 1], |blocks[m - 1].txs|), last);
        ps := before + last;
      }
    }
  }

  predicate Addressed(op: Op, channelId: string) {
    ToLower(op.channelId) == channelId
  }

  // An inscription of this channel that names content which can be preserved.
  predicate Preservable(op: Op, channelId: string) {
    && Addressed(op, channelId) && op.inscription.size <= MAX_INSCRIPTION_BYTES && op.inscription.manifest.Some?
    && var man := op.inscription.manifest.value;
       if man.kind == "ia_item" then man.id != "" else man.cid != ""
  }

  // The row names its block, transaction and signer and takes over what the manifest says. An archive item is
  // its own reference; a keeper row's id is the manifest's, else the label's, else the hash.
  predicate Says(row: Item, channelId: string, o: Located) {
    && o.op.inscription.manifest.Some?
    && row.channelId == channelId && row.state == Available && row.progress == 0 && row.storedCids == []
    && row.inscribedAtSlot == o.slot && row.blockHash == o.blockId
    && row.txHash == o.txHash && row.txIndex == o.txIndex && row.curator == o.op.signer
    && var man := o.op.inscription.manifest.value;
       && row.display == man.display
       && (if man.kind == "ia_item"
           then row.id == row.iaId == man.id && row.cid == "" && row.iaFile == ""
           else
             && row.cid == man.cid
             && (man.id != "" ==> row.id == man.id)
             && (man.id == "" && man.labelId != "" ==> row.id == man.labelId)
             && (man.id == "" && man.labelId == "" ==> row.id == row.txHash)
             && var ref := Labels.DeriveIaRef(man.cid, man.caption);
                row.iaFile == ref.file && row.iaId == if ref.id != "" then ref.id else man.labelId)
  }

  // The row is what the k-th operation of the i-th transaction of the block inscribes.
  predicate Describes(row: Item, channelId: string, b: Block, i: nat, op: Op) {
    i < |b.txs| && Says(row, channelId, Located(b.slot, b.id, b.txs[i].hash, i, op))
  }

  lemma OneRow(o: Located, channelId: string)
    ensures Outcomes(o, channelId).Match? <==> Preservable(o.op, channelId)
    ensures Outcomes(o, channelId).Match? ==> Says(Outcomes(o, channelId).item, channelId, o)
  {
    hide Labels.DeriveIaRef;
  }

  // The rows stand at these places, in order, and no other place holds one.
  predicate RowsAt(blocks: seq<Block>, channelId: string, lib: int, rows: seq<Item>, ps: seq<Place>) {
    && |ps| == |rows| && Increasing(ps)
    && (forall i | 0 <= i < |rows| :: InscribesAt(blocks, lib, ps[i]) &&
          Describes(rows[i], channelId, blocks[ps[i].block], ps[i].tx, OpAt(blocks, ps[i])))
  }

  // The rows are what the finalized blocks say: one for each operation that inscribes a preservable item on the
  // channel, in chain order.
  ghost predicate ReadOff(blocks: seq<Block>, channelId: string, lib: int, rows: seq<Item>) {
    exists ps :: RowsAt(blocks, channelId, lib, rows, ps) &&
      forall p :: p in ps <==> InscribesAt(blocks, lib, p) && Preservable(OpAt(blocks, p), channelId)
  }

  lemma {:induction false} MatchPlaces(blocks: seq<Block>, ops: seq<Located>, channelId: string, lib: int, ps: seq<Place>)
    returns (qs: seq<Place>)
    requires Standing(blocks, ops, ps) && forall p | p in ps :: InscribesAt(blocks, lib, p)
    ensures RowsAt(blocks, channelId, lib, Matches(ops, channelId), qs)
    ensures forall p :: p in qs <==> p in ps && Preservable(OpAt(blocks, p), channelId)
  {
    qs := [];
    if ops != [] {
      hide Before, Says, Preservable, InscribesAt, Outcomes;
      var n := |ops| - 1;
      var o, p := ops[n], ps[n];
      qs := MatchPlaces(blocks, ops[..n], channelId, lib, ps[..n]);
      assert ps == ps[..n] + [p];
      OneRow(o, channelId);
      assert p in ps;
      if Preservable(o.op, channelId) {
        qs := AddPlace(blocks, channelId, lib, Matches(ops[..n], channelId), qs, Outcomes(o, channelId).item, ps, n);
      } else {
        assert Matches(ops, channelId) == Matches(ops[..n], channelId);
      }
    }
  }

  lemma AddPlace(blocks: seq<Block>, channelId: string, lib: int, rows: seq<Item>, qs: seq<Place>, row: Item,
                 ps: seq<Place>, n: nat) returns (rs: seq<Place>)
    requires RowsAt(blocks, channelId, lib, rows, qs) && Increasing(ps) && |ps| == n + 1
    requires forall q | q in qs :: q in ps[..n]
    requires InscribesAt(blocks, lib, ps[n]) &&
             Describes(row, channelId, blocks[ps[n].block], ps[n].tx, OpAt(blocks, ps[n]))
    ensures rs == qs + [ps[n]] && RowsAt(blocks, channelId, lib, rows + [row], rs)
  {
    hide Before, Describes, InscribesAt;
    rs := qs + [ps[n]];
    forall i, j | 0 <= i < j < |rs| ensures Before(rs[i], rs[j]) {
      if j == |qs| {
        assert qs[i] in qs;
        var k :| 0 <= k < n && ps[k] == qs[i];
      }
    }
  }

  lemma RowsReadOff(blocks: seq<Block>, channelId: string, lib: int)
    ensures ReadOff(blocks, channelId, lib, Matches(Inscribed(blocks, lib), channelId))
  {
    hide Standing, RowsAt, InscribesAt, Preservable;
    var ps := InscribedPlaces(blocks, lib, |blocks|);
    assert blocks[..|blocks|] == blocks;
    PlacesAreIn(blocks, lib, ps);
    var qs := MatchPlaces(blocks, Inscribed(blocks, lib), channelId, lib, ps);
  }

  lemma PlacesAreIn(blocks: seq<Block>, lib: int, ps: seq<Place>)
    requires forall p :: p in ps <==> InscribesAt(blocks, lib, p) && p.block < |blocks|
    ensures forall p :: p in ps <==> InscribesAt(blocks, lib, p)
  {
  }

  // ----- what the counters count -----

  function HowMany(ops: seq<Located>, q: Op -> bool): nat {
    if ops == [] then 0 else HowMany(ops[..|ops| - 1], q) + Bit(q(ops[|ops| - 1].op))
  }

  predicate TooLarge(op: Op, channelId: string) {
    Addressed(op, channelId) && op.inscription.size > MAX_INSCRIPTION_BYTES
  }

  predicate Unreadable(op: Op, channelId: string) {
    Addressed(op, channelId) && op.inscription.size <= MAX_INSCRIPTION_BYTES && op.inscription.manifest.None?
  }

  predicate WithoutContent(op: Op, channelId: string) {
    && Addressed(op, channelId) && op.inscription.size <= MAX_INSCRIPTION_BYTES && op.inscription.manifest.Some?
    && var man := op.inscription.manifest.value;
       if man.kind == "ia_item" then man.id == "" else man.cid == ""
  }

  lemma OneCounted(o: Located, channelId: string)
    ensures var t := One(Outcomes(o, channelId));
            && t.other == Bit(!Addressed(o.op, channelId))
            && t.oversized == Bit(TooLarge(o.op, channelId))
            && t.notJson == Bit(Unreadable(o.op, channelId))
            && t.noCid == Bit(WithoutContent(o.op, channelId))
            && t.matched == Bit(Preservable(o.op, channelId))
  {
    hide KeeperId, KeeperRef;
  }

  // Each counter counts what its name says.
  lemma {:induction false} CountersCount(ops: seq<Located>, channelId: string)
    ensures var t := TallyOf(ops, channelId);
            && t.other == HowMany(ops, op => !Addressed(op, channelId))
            && t.oversized == HowMany(ops, op => TooLarge(op, channelId))
            && t.notJson == HowMany(ops, op => Unreadable(op, channelId))
            && t.noCid == HowMany(ops, op => WithoutContent(op, channelId))
            && t.matched == HowMany(ops, op => Preservable(op, channelId))
  {
    hide Outcomes, One, Addressed, TooLarge, Unreadable, WithoutContent, Preservable;
    if ops != [] {
      OneCounted(ops[|ops| - 1], channelId);
      CountersCount(ops[..|ops| - 1], channelId);
    }
  }

  // ----- the decoder -----

  lemma OneMore(ops: seq<Located>, o: Located, channelId: string)
    ensures TallyOf(ops + [o], channelId) == Plus(TallyOf(ops, channelId), One(Outcomes(o, channelId)))
    ensures var r := Outcomes(o, channelId);
            Matches(ops + [o], channelId) == Matches(ops, channelId) + if r.Match? then [r.item] else []
  {
    assert (ops + [o])[..|ops|] == ops;
  }

  // `out` and `stats` are what the operations `seen` so far amount to.
  ghost predicate Decoded(out: seq<Item>, stats: ScanStats, seen: seq<Located>, channelId: string, notFinalized: int) {
    && out == Matches(seen, channelId)
    && stats == StatsOf(TallyOf(seen, channelId), notFinalized)
  }

  // The item of a keeper inscription, its fields filled in one by one as the source does.
  method KeeperItem(o: Located, channelId: string, man: Manifest) returns (item: Item)
    ensures item == MakeItem(o, channelId, man, KeeperId(man, o.txHash), man.cid, KeeperRef(man))
    ensures o.op.inscription.manifest == Some(man) && man.kind != "ia_item" ==> Says(item, channelId, o)
  {
    var ref := Labels.DeriveIaRef(man.cid, man.caption);
    item := MakeItem(o, channelId, man, "", man.cid, ref);
    item := item.(id := if man.id != "" then man.id else if man.labelId != "" then man.labelId else o.txHash);
    if item.iaId == "" && man.labelId != "" {
      item := item.(iaId := man.labelId);
    }
  }

  // The skips of the source, in its order.
  method Judge(o: Located, channelId: string) returns (r: Outcome)
    ensures r == Outcomes(o, channelId) && (r.Match? <==> Preservable(o.op, channelId))
    ensures r.Match? ==> Says(r.item, channelId, o)
  {
    OneRow(o, channelId);
    if ToLower(o.op.channelId) != channelId {
      return OtherChannel;
    }
    if o.op.inscription.size > MAX_INSCRIPTION_BYTES {
      return Oversized;
    }
    if o.op.inscription.manifest.None? {
      return NotJson;
    }
    var man := o.op.inscription.manifest.value;
    var iaEntry := man.kind == "ia_item";
    if (man.cid == "" && !iaEntry) || (iaEntry && man.id == "") {
      return NoCid;
    }
    if iaEntry {
      return Match(MakeItem(o, channelId, man, man.id, "", Labels.IaRef(man.id, "")));
    }
    var item := KeeperItem(o, channelId, man);
    return Match(item);
  }

  function Counted(stats: ScanStats, r: Outcome): ScanStats {
    match r
    case OtherChannel => stats.(otherChannel := stats.otherChannel + 1)
    case Oversized => stats.(oversized := stats.oversized + 1)
    case NotJson => stats.(notJson := stats.notJson + 1)
    case NoCid => stats.(noCid := stats.noCid + 1)
    case Match(_) => stats.(matched := stats.matched + 1)
  }

  lemma CountedIs(t: Tally, r: Outcome, notFinalized: int)
    ensures Counted(StatsOf(t, notFinalized), r) == StatsOf(Plus(t, One(r)), notFinalized)
  {
  }

  // The innermost loop body of the source: one operation's counter and item.
  method DecodeOp(o: Located, channelId: string, out: seq<Item>, stats: ScanStats,
                  ghost seen: seq<Located>, ghost notFinalized: int)
    returns (out': seq<Item>, stats': ScanStats)
    requires Decoded(out, stats, seen, channelId, notFinalized)
    ensures Decoded(out', stats', seen + [o], channelId, notFinalized)
  {
    var r := Judge(o, channelId);
    OneMore(seen, o, channelId);
    CountedIs(TallyOf(seen, channelId), r, notFinalized);
    stats' := Counted(stats, r);
    out' := if r.Match? then out + [r.item] else out;
    assert r.Match? || out + [] == out;
  }

  method ExtractFromTx(block: Block, i: nat, channelId: string, out: seq<Item>, stats: ScanStats,
                       ghost seen: seq<Located>, ghost notFinalized: int)
    returns (out': seq<Item>, stats': ScanStats)
    requires i < |block.txs| && Decoded(out, stats, seen, channelId, notFinalized)
    ensures Decoded(out', stats', seen + TxOps(block, i, |block.txs[i].ops|), channelId, notFinalized)
  {
    out', stats' := out, stats;
    var tx := block.txs[i];
    assert seen + [] == seen;
    for k := 0 to |tx.ops|
      invariant Decoded(out', stats', seen + TxOps(block, i, k), channelId, notFinalized)
    {
      assert tx.ops[k].opcode != INSCRIBE_OPCODE ==> TxOps(block, i, k + 1) == TxOps(block, i, k);
      if tx.ops[k].opcode != INSCRIBE_OPCODE {
        continue;
      }
      var o := Located(block.slot, block.id, tx.hash, i, tx.ops[k]);
      assert seen + TxOps(block, i, k + 1) == seen + TxOps(block, i, k) + [o];
      out', stats' := DecodeOp(o, channelId, out', stats', seen + TxOps(block, i, k), notFinalized);
    }
  }

  // The loop over the transactions of one block.
  method ExtractFromBlock(block: Block, channelId: string, out: seq<Item>, stats: ScanStats,
                          ghost seen: seq<Located>, ghost notFinalized: int)
    returns (out': seq<Item>, stats': ScanStats)
    requires Decoded(out, stats, seen, channelId, notFinalized)
    ensures Decoded(out', stats', seen + BlockOps(block, |block.txs|), channelId, notFinalized)
  {
    out', stats' := out, stats;
    assert seen + [] == seen;
    for i := 0 to |block.txs|
      invariant Decoded(out', stats', seen + BlockOps(block, i), channelId, notFinalized)
    {
      out', stats' := ExtractFromTx(block, i, channelId, out', stats', seen + BlockOps(block, i), notFinalized);
      assert seen + BlockOps(block, i + 1) == seen + BlockOps(block, i) + TxOps(block, i, |block.txs[i].ops|);
    }
  }

  method ExtractItems(blocks: seq<Block>, channelId: string, lib: int) returns (out: seq<Item>, stats: ScanStats)
    ensures out == Matches(Inscribed(blocks, lib), channelId) && ReadOff(blocks, channelId, lib, out)
    ensures stats == StatsOf(TallyOf(Inscribed(blocks, lib), channelId), NotFinalized(blocks, lib))
  {
    out, stats := [], NO_STATS;
    for n := 0 to |blocks|
      invariant Decoded(out, stats, Inscribed(blocks[..n], lib), channelId, NotFinalized(blocks[..n], lib))
    {
      var block := blocks[n];
      assert blocks[..n + 1][..n] == blocks[..n];
      if block.slot > lib {
        assert Inscribed(blocks[..n + 1], lib) == Inscribed(blocks[..n], lib);
        stats := stats.(notFinalized := stats.notFinalized + 1);
        continue;
      }
      out, stats := ExtractFromBlock(block, channelId, out, stats, Inscribed(blocks[..n], lib), NotFinalized(blocks[..n], lib));
    }
    assert blocks[..|blocks|] == blocks;
    RowsReadOff(blocks, channelId, lib);
  }

  // ----- the decoder looks at one block at a time -----

  lemma {:induction false} InscribedAppend(a: seq<Block>, b: seq<Block>, lib: int)
    ensures Inscribed(a + b, lib) == Inscribed(a, lib) + Inscribed(b, lib)
  {
    hide BlockOps;
    if b == [] {
      assert a + b == a;
    } else {
      var n := |b| - 1;
      assert (a + b)[..|a| + n] == a + b[..n];
      InscribedAppend(a, b[..n], lib);
    }
  }

  lemma {:induction false} MatchesAppend(a: seq<Located>, b: seq<Located>, channelId: string)
    ensures Matches(a + b, channelId) == Matches(a, channelId) + Matches(b, channelId)
  {
    if b == [] {
      assert a + b == a;
    } else {
      var n := |b| - 1;
      assert (a + b)[..|a| + n] == a + b[..n];
      MatchesAppend(a, b[..n], channelId);
    }
  }

  lemma {:induction false} TallyAppend(a: seq<Located>, b: seq<Located>, channelId: string)
    ensures TallyOf(a + b, channelId) == Plus(TallyOf(a, channelId), TallyOf(b, channelId))
  {
    if b == [] {
      assert a + b == a;
    } else {
      var n := |b| - 1;
      assert (a + b)[..|a| + n] == a + b[..n];
      TallyAppend(a, b[..n], channelId);
    }
  }

  // Every inscribe operation is counted exactly once, and the matches are the items.
  lemma {:induction false} TallyConserves(ops: seq<Located>, channelId: string)
    ensures var t := TallyOf(ops, channelId);
            && t.matched + t.other + t.oversized + t.notJson + t.noCid == |ops|
            && t.matched == |Matches(ops, channelId)|
  {
    if ops != [] {
      TallyConserves(ops[..|ops| - 1], channelId);
    }
  }

  // The blocks past the finalized end are counted one by one.
  lemma {:induction false} NotFinalizedAppend(a: seq<Block>, b: seq<Block>, lib: int)
    ensures NotFinalized(a + b, lib) == NotFinalized(a, lib) + NotFinalized(b, lib)
    ensures |b| == 1 ==> NotFinalized(b, lib) == Bit(b[0].slot > lib)
  {
    if b == [] {
      assert a + b == a;
    } else {
      var n := |b| - 1;
      assert (a + b)[..|a| + n] == a + b[..n];
      NotFinalizedAppend(a, b[..n], lib);
    }
  }

  lemma {:induction false} AllFinalized(blocks: seq<Block>, lib: int)
    requires forall b | b in blocks :: b.slot <= lib
    ensures NotFinalized(blocks, lib) == 0
  {
    if blocks != [] {
      AllFinalized(blocks[..|blocks| - 1], lib);
    }
  }

  // Past the last block the finality bound no longer matters.
  lemma {:induction false} BoundIrrelevant(blocks: seq<Block>, lib: int, lib': int)
    requires forall b | b in blocks :: b.slot <= lib && b.slot <= lib'
    ensures Inscribed(blocks, lib) == Inscribed(blocks, lib')
  {
    if blocks != [] {
      BoundIrrelevant(blocks[..|blocks| - 1], lib, lib');
    }
  }

  lemma {:induction false} MatchesAre(ops: seq<Located>, channelId: string, i: nat)
    requires i < |Matches(ops, channelId)|
    ensures var c := Matches(ops, channelId)[i];
            && c.channelId == channelId && c.state == Available && c.storedCids == [] && c.inscribedAtSlot >= 0
            && (c.cid == "" ==> c.iaId != "")
  {
    var n := |ops| - 1;
    if i < |Matches(ops[..n], channelId)| {
      MatchesAre(ops[..n], channelId, i);
    }
  }
}
