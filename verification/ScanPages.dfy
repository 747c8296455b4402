/** The pages a channel's scans merge: together they tile the slots from its start slot to its cursor. */
module ScanPages {
  import opened Basics
  import opened Inscriptions
  import opened Channels
  import opened Persistence
  import Scan = ScanSteps
  import opened ScanSteps
  import opened ScanRuns
  import opened ScanTheorems

  datatype Span = Span(from: int, to: int)

  // The spans follow each other without gap or overlap, from `lo` up to but excluding `hi`.
  ghost predicate Tile(lo: int, spans: seq<Span>, hi: int)
    decreases |spans|
  {
    if spans == [] then lo == hi
    else spans[0].from == lo <= spans[0].to && Tile(spans[0].to + 1, spans[1..], hi)
  }

  // The page of channel `id` that event `e` merges, if it does.
  function MergedBy(w: World, e: Event, id: string): Option<Span> {
    if e.PageReply? && e.outcome == Served && e.ctx in w.client.contexts && w.client.contexts[e.ctx] != [] then
      var r := w.client.contexts[e.ctx][0];
      if r.channelId == id && r.request.Page? then Some(Span(r.request.from, r.request.to)) else None
    else None
  }

  function MergedPages(chain: seq<Block>, w: World, events: seq<Event>, id: string): seq<Span>
    decreases |events|
  {
    if events == [] then []
    else
      var rest := MergedPages(chain, Step(chain, w, events[0]), events[1..], id);
      match MergedBy(w, events[0], id)
      case None => rest
      case Some(span) => [span] + rest
  }

  // Channel `id` stays followed: no restart, and no unfollow of it.
  predicate Uncut(events: seq<Event>, id: string) {
    forall e | e in events :: e != Restart && e != Unfollow(id)
  }

  ghost predicate SamePlace(c: Client, c': Client, id: string) {
    && id in c.channels && id in c'.channels
    && c'.channels[id].cursor == c.channels[id].cursor
    && (c.channels[id].cursor > 0 ==> c'.channels[id].startSlot == c.channels[id].startSlot)
  }

  // The channel has moved over the page `span`, which starts right after what it had covered.
  ghost predicate Moved(c: Client, c': Client, id: string, span: Span) {
    && id in c.channels && id in c'.channels
    && span.from == NextSlot(c.channels[id]) <= span.to && 0 < span.to
    && c'.channels[id].cursor == span.to
    && c'.channels[id].startSlot == c.channels[id].startSlot
  }

  lemma NextPagePlace(c: Client, ctx: nat, id': string, gateway: nat, lib: int, pagesLeft: int, id: string)
    requires id' in c.channels && id in c.channels
    ensures var c' := NextPage(c, ctx, id', gateway, lib, pagesLeft);
            && SamePlace(c, c', id) && c'.channels[id].startSlot == c.channels[id].startSlot
  {
    hide SaveAll;
  }

  lemma PagePlace(chain: seq<Block>, w: World, ctx: nat, body: PageBody, id: string)
    requires Faithful(chain, w) && id in w.client.channels && ctx in w.client.contexts && w.client.contexts[ctx] != []
    requires w.client.contexts[ctx][0].request.Page?
    ensures var c := w.client; var c' := Deliver(c, ctx, Blocks(body)); var r := c.contexts[ctx][0];
            if body.Body? && r.channelId == id then Moved(c, c', id, Span(r.request.from, r.request.to))
            else SamePlace(c, c', id)
  {
    hide Agrees, CountsAgree, NextPage, Merge, Matches, Inscribed, TallyOf, NotFinalized, SaveAll;
    var c, r := w.client, w.client.contexts[ctx][0];
    var c1 := Arrive(c, ctx);
    assert OwnedContext(c, ctx) && OneReply(c, r.channelId);
    assert TheReply(c, r.channelId) == r && RequestOk(c.channels[r.channelId], r, w.libs);
    AgreesBasics(chain, c.channels[r.channelId]);
    if body.Body? {
      var c2 := WithPage(c1, r, body.blocks);
      NextPagePlace(c2, ctx, r.channelId, r.gateway, r.request.lib, r.request.pagesLeft - 1, id);
    }
  }

  lemma OtherReplyPlace(c: Client, ctx: nat, a: Answer, id: string)
    requires Owned(c) && id in c.channels && !a.Blocks?
    requires a.BlockSlot? && ctx in c.contexts && c.contexts[ctx] != [] && c.contexts[ctx][0].request.ExplorerBlock? ==>
               c.contexts[ctx][0].channelId in c.channels && c.channels[c.contexts[ctx][0].channelId].cursor == 0
    ensures SamePlace(c, Deliver(c, ctx, a), id)
  {
    hide NextPage, SaveAll;
    if ctx in c.contexts && c.contexts[ctx] != [] && Fits(c.contexts[ctx][0].request, a)
       && c.contexts[ctx][0].channelId in c.channels && a.LibSlot? {
      var r := c.contexts[ctx][0];
      if a.lib.Some? && a.lib.value > 0 {
        NextPagePlace(Arrive(c, ctx), ctx, r.channelId, r.gateway, a.lib.value, MAX_PAGES, id);
      }
    }
  }

  lemma ReplyPlace(chain: seq<Block>, w: World, e: Event, id: string)
    requires Faithful(chain, w) && id in w.client.channels && MergedBy(w, e, id).None?
    requires e.ExplorerChannelReply? || e.ExplorerBlockReply? || e.InfoReply? || e.PageReply?
    ensures SamePlace(w.client, ClientStep(chain, w, e), id)
  {
    hide Agrees, CountsAgree, Deliver;
    var c := w.client;
    match e
    case ExplorerChannelReply(ctx, known) => OtherReplyPlace(c, ctx, FirstBlock(known), id);
    case InfoReply(ctx, ok) => OtherReplyPlace(c, ctx, LibSlot(LibAnswer(w, ctx, ok)), id);
    case ExplorerBlockReply(ctx, slot) =>
      if ctx in c.contexts && c.contexts[ctx] != [] {
        var r := c.contexts[ctx][0];
        assert OwnedContext(c, ctx) && OneReply(c, r.channelId);
        assert TheReply(c, r.channelId) == r && RequestOk(c.channels[r.channelId], r, w.libs);
      }
      OtherReplyPlace(c, ctx, BlockSlot(slot), id);
    case PageReply(ctx, outcome) =>
      if ctx in c.contexts && c.contexts[ctx] != [] && c.contexts[ctx][0].request.Page? {
        PagePlace(chain, w, ctx, PageAnswer(chain, w, ctx, outcome), id);
      } else {
        IdleDelivery(c, ctx, PageAnswer(chain, w, ctx, outcome));
      }
  }

  lemma IdleDelivery(c: Client, ctx: nat, body: PageBody)
    requires !(ctx in c.contexts && c.contexts[ctx] != [] && c.contexts[ctx][0].request.Page?)
    ensures Deliver(c, ctx, Blocks(body)) == c
  {
  }

  lemma CommandPlace(chain: seq<Block>, w: World, e: Event, id: string)
    requires Faithful(chain, w) && id in w.client.channels && e != Restart && e != Unfollow(id)
    requires !(e.ExplorerChannelReply? || e.ExplorerBlockReply? || e.InfoReply? || e.PageReply?)
    ensures SamePlace(w.client, ClientStep(chain, w, e), id)
  {
    hide Good, Books, RequestsOk, Owned, SaveAll, LoadAll, Faithful;
  }

  lemma StepPlace(chain: seq<Block>, w: World, e: Event, id: string)
    requires Faithful(chain, w) && id in w.client.channels && e != Restart && e != Unfollow(id)
    ensures var c, c' := w.client, Step(chain, w, e).client;
            match MergedBy(w, e, id)
            case None => SamePlace(c, c', id)
            case Some(span) => Moved(c, c', id, span)
  {
    hide Faithful, ClientStep;
    if MergedBy(w, e, id).Some? {
      MergePlace(chain, w, e, id);
    } else if e.ExplorerChannelReply? || e.ExplorerBlockReply? || e.InfoReply? || e.PageReply? {
      ReplyPlace(chain, w, e, id);
    } else {
      CommandPlace(chain, w, e, id);
    }
  }

  lemma MergePlace(chain: seq<Block>, w: World, e: Event, id: string)
    requires Faithful(chain, w) && id in w.client.channels && MergedBy(w, e, id).Some?
    ensures Moved(w.client, ClientStep(chain, w, e), id, MergedBy(w, e, id).value)
  {
    hide Agrees, CountsAgree, Deliver;
    assert OwnedContext(w.client, e.ctx);
    PagePlace(chain, w, e.ctx, PageAnswer(chain, w, e.ctx, e.outcome), id);
  }

  // The first slot the pages of a run cover: the one after the cursor, or, when nothing was covered
  // before, the start slot (which the explorer may still have moved).
  function FirstSlot(ch: Channel, end: Channel): int {
    if ch.cursor > 0 then ch.cursor + 1 else end.startSlot
  }

  // While a channel stays followed, the pages merged over all its scans - refreshed, failed, resumed on
  // whatever gateway - tile the slots it covers, in order, without gap or overlap.
  lemma {:induction false} PagesTile(chain: seq<Block>, w: World, events: seq<Event>, id: string)
    requires Faithful(chain, w) && id in w.client.channels && Uncut(events, id)
    ensures var w' := Run(chain, w, events);
            && id in w'.client.channels
            && (w.client.channels[id].cursor > 0 ==>
                  w'.client.channels[id].cursor > 0
                  && w'.client.channels[id].startSlot == w.client.channels[id].startSlot)
            && Tile(FirstSlot(w.client.channels[id], w'.client.channels[id]),
                    MergedPages(chain, w, events, id), NextSlot(w'.client.channels[id]))
    decreases |events|
  {
    hide Faithful, Step, MergedBy;
    if events != [] {
      assert events[0] in events;
      assert forall e | e in events[1..] :: e in events;
      StepFaithful(chain, w, events[0]);
      StepPlace(chain, w, events[0], id);
      PagesTile(chain, Step(chain, w, events[0]), events[1..], id);
      if MergedBy(w, events[0], id).Some? {
        var span := MergedBy(w, events[0], id).value;
        assert MergedPages(chain, w, events, id)[1..] == MergedPages(chain, Step(chain, w, events[0]), events[1..], id);
      }
    }
  }
}
