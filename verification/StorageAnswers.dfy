/** What the storage client says and asks, over every order of events (src/storage_client.cpp): each answer a
    signal carries is one the transport gave for that CID or a refusal of the client's own, each is passed on, and
    the transport is asked exactly for what the caller asked for. */
module StorageAnswers {
  import opened Basics
  import opened StorageClients

  // How often an event of that kind met a client of that kind.
  function When(events: seq<Event>, met: (Store, Event) -> bool): nat {
    if events == [] then 0
    else
      var before := events[..|events| - 1];
      When(before, met) + Bit(met(Run(before), events[|events| - 1]))
  }

  // ----- from one step to all runs -----

  lemma {:induction false} SignalsOver(events: seq<Event>, p: Signal -> bool, met: (Store, Event) -> bool)
    requires forall s, e :: Count(Step(s, e).signals, p) == Count(s.signals, p) + Bit(met(s, e))
    ensures Count(Run(events).signals, p) == When(events, met)
  {
    hide Step;
    if events != [] {
      SignalsOver(events[..|events| - 1], p, met);
    }
  }

  lemma {:induction false} CallsOver(events: seq<Event>, p: Call -> bool, met: (Store, Event) -> bool)
    requires forall s, e :: Count(Step(s, e).calls, p) == Count(s.calls, p) + Bit(met(s, e))
    ensures Count(Run(events).calls, p) == When(events, met)
  {
    hide Step;
    if events != [] {
      CallsOver(events[..|events| - 1], p, met);
    }
  }

  function OfAny(q: Event -> bool): (Store, Event) -> bool {
    (s: Store, e: Event) => q(e)
  }

  lemma {:induction false} WhenIsCount(events: seq<Event>, q: Event -> bool)
    ensures When(events, OfAny(q)) == Count(events, q)
  {
    hide Run;
    if events != [] {
      WhenIsCount(events[..|events| - 1], q);
    }
  }

  // ----- one step -----

  predicate NotHealth(p: Signal -> bool) {
    forall state :: !p(HealthChanged(state))
  }

  lemma {:induction false} AnnounceTells(s: Store, up: bool, n: nat, p: Signal -> bool)
    requires NotHealth(p)
    ensures Count(Announce(s, up, n).signals, p) == Count(s.signals, p) && Announce(s, up, n).calls == s.calls
  {
    if n > 0 {
      AnnounceTells(s, up, n - 1, p);
      CountOneMore(Announce(s, up, n - 1).signals, HealthChanged(if up then Ready else Offline), p);
    }
  }

  predicate Readiness(e: Event) {
    e.InitStorage? || e.PollHealth? || e.Started? || e.InitDone? || e.Pinged?
  }

  lemma ReadinessTells(s: Store, e: Event, p: Signal -> bool)
    requires NotHealth(p) && Readiness(e)
    ensures Count(Step(s, e).signals, p) == Count(s.signals, p)
  {
    hide Count;
    forall state ensures Count(s.signals + [HealthChanged(state)], p) == Count(s.signals, p) {
      CountOneMore(s.signals, HealthChanged(state), p);
    }
    if e.Started? {
      AnnounceTells(s, e.up, s.startedSubscribers, p);
    }
  }

  // The signal of a step that answers a pin, an upload or a removal.
  function AnswerOf(s: Store, e: Event): Option<Signal> {
    if !Readiness(e) && |Step(s, e).signals| > |s.signals| then Some(Step(s, e).signals[|s.signals|]) else None
  }

  predicate Says(answer: Option<Signal>, p: Signal -> bool) {
    answer.Some? && p(answer.value)
  }

  lemma StepTells(s: Store, e: Event, p: Signal -> bool)
    requires NotHealth(p)
    ensures Count(Step(s, e).signals, p) == Count(s.signals, p) + Bit(Says(AnswerOf(s, e), p))
  {
    hide Count, NotHealth;
    if Readiness(e) {
      ReadinessTells(s, e, p);
    } else {
      OneAnswer(s, e);
      if AnswerOf(s, e).Some? {
        CountOneMore(s.signals, AnswerOf(s, e).value, p);
      }
    }
  }

  lemma OneAnswer(s: Store, e: Event)
    requires !Readiness(e)
    ensures Step(s, e).signals == if AnswerOf(s, e).Some? then s.signals + [AnswerOf(s, e).value] else s.signals
  {
    hide ContainsNotFound;
  }

  // ----- pins -----

  function PinnedSignal(cid: string): Signal -> bool {
    (g: Signal) => g.PinFinished? && g.cid == cid && g.ok
  }

  function FetchedEvent(cid: string): Event -> bool {
    (e: Event) => e.Fetched? && e.cid == cid && e.ok
  }

  function TheSignal(g: Signal): Signal -> bool {
    (x: Signal) => x == g
  }

  function PinFails(cid: string, error: string): (Store, Event) -> bool {
    (s: Store, e: Event) =>
      e == Fetched(cid, false, error) || (e == Pin(cid) && cid in s.pinning && error == "pin_in_progress")
  }

  lemma PinAnswers(s: Store, e: Event, cid: string, error: string)
    ensures Says(AnswerOf(s, e), PinnedSignal(cid)) == FetchedEvent(cid)(e)
    ensures Says(AnswerOf(s, e), TheSignal(PinFinished(cid, false, error))) == PinFails(cid, error)(s, e)
  {
    hide ContainsNotFound;
  }

  // A pin is told to have succeeded exactly as often as a fetch of its CID did, and to have failed with an error
  // as often as a fetch of it did so - or, with "pin_in_progress", as it was asked for while outstanding.
  lemma PinsAreAnsweredTruly(events: seq<Event>, cid: string, error: string)
    ensures Count(Run(events).signals, PinnedSignal(cid)) == Count(events, FetchedEvent(cid))
    ensures Count(Run(events).signals, TheSignal(PinFinished(cid, false, error))) == When(events, PinFails(cid, error))
  {
    var good, bad := PinnedSignal(cid), TheSignal(PinFinished(cid, false, error));
    forall s, e
      ensures Count(Step(s, e).signals, good) == Count(s.signals, good) + Bit(OfAny(FetchedEvent(cid))(s, e))
      ensures Count(Step(s, e).signals, bad) == Count(s.signals, bad) + Bit(PinFails(cid, error)(s, e))
    {
      hide Count, Step, AnswerOf;
      StepTells(s, e, good);
      StepTells(s, e, bad);
      PinAnswers(s, e, cid, error);
    }
    hide Step, Count, When, OfAny, PinFails;
    SignalsOver(events, good, OfAny(FetchedEvent(cid)));
    WhenIsCount(events, FetchedEvent(cid));
    SignalsOver(events, bad, PinFails(cid, error));
  }

  // ----- uploads -----

  function UploadedSignal(cid: string): Signal -> bool {
    (g: Signal) => g.UploadFinished? && g.cid == cid && g.ok
  }

  function Completes(cid: string): (Store, Event) -> bool {
    (s: Store, e: Event) => e.UploadDone? && e.cid == cid && e.ok && s.uploading && s.uploadSubscribed
  }

  function UploadFails(cid: string, error: string): (Store, Event) -> bool {
    (s: Store, e: Event) =>
      || (e == UploadDone(false, cid, error) && s.uploading && s.uploadSubscribed)
      || (e == UploadAcked(false, error) && cid == "")
      || (e.Upload? && s.uploading && cid == "" && error == "upload_in_progress")
  }

  lemma UploadAnswers(s: Store, e: Event, cid: string, error: string)
    ensures Says(AnswerOf(s, e), UploadedSignal(cid)) == Completes(cid)(s, e)
    ensures Says(AnswerOf(s, e), TheSignal(UploadFinished(false, cid, error))) == UploadFails(cid, error)(s, e)
  {
    hide ContainsNotFound;
  }

  // A completed upload is reported, with its CID, exactly as often as a completion with that CID found one
  // outstanding. A failed one carries the completion's error, the transport's refusal, or "upload_in_progress" when
  // it was asked for beside another.
  lemma UploadsAreAnsweredTruly(events: seq<Event>, cid: string, error: string)
    ensures Count(Run(events).signals, UploadedSignal(cid)) == When(events, Completes(cid))
    ensures Count(Run(events).signals, TheSignal(UploadFinished(false, cid, error))) == When(events, UploadFails(cid, error))
  {
    var good, bad := UploadedSignal(cid), TheSignal(UploadFinished(false, cid, error));
    forall s, e
      ensures Count(Step(s, e).signals, good) == Count(s.signals, good) + Bit(Completes(cid)(s, e))
      ensures Count(Step(s, e).signals, bad) == Count(s.signals, bad) + Bit(UploadFails(cid, error)(s, e))
    {
      hide Count, Step, AnswerOf;
      StepTells(s, e, good);
      StepTells(s, e, bad);
      UploadAnswers(s, e, cid, error);
    }
    hide Step, Count, When, Completes, UploadFails;
    SignalsOver(events, good, Completes(cid));
    SignalsOver(events, bad, UploadFails(cid, error));
  }

  // ----- removals -----

  // The error says somewhere that the CID is not held, in letters of any case.
  predicate SaysNotFound(error: string) {
    exists i, j | 0 <= i <= j <= |error| :: ToLower(error[i..j]) == NOT_FOUND
  }

  lemma LowerSlice(error: string, i: nat, j: nat)
    requires i <= j <= |error|
    ensures ToLower(error[i..j]) == ToLower(error)[i..][..j - i]
  {
  }

  lemma SaysNotFoundIs(error: string)
    ensures SaysNotFound(error) <==> ContainsNotFound(error)
  {
    hide ToLower;
    assert |ToLower(error)| == |error| by { SameSize(error); }
    if ContainsNotFound(error) {
      var i :| 0 <= i <= |error| && StartsWith(ToLower(error)[i..], NOT_FOUND);
      LowerSlice(error, i, i + |NOT_FOUND|);
    }
    if SaysNotFound(error) {
      var i, j :| 0 <= i <= j <= |error| && ToLower(error[i..j]) == NOT_FOUND;
      LowerSlice(error, i, j);
    }
  }

  lemma SameSize(s: string)
    ensures |ToLower(s)| == |s|
  {
  }

  function UnpinnedSignal(cid: string): Signal -> bool {
    (g: Signal) => g.UnpinFinished? && g.cid == cid && g.ok
  }

  function RemovedEvent(cid: string): Event -> bool {
    (e: Event) => e.Removed? && e.cid == cid && (e.ok || SaysNotFound(e.error))
  }

  function RemovalFails(cid: string, error: string): Event -> bool {
    (e: Event) => e == Removed(cid, false, error) && !SaysNotFound(error)
  }

  lemma RemovalAnswers(s: Store, e: Event, cid: string, error: string)
    ensures Says(AnswerOf(s, e), UnpinnedSignal(cid)) == RemovedEvent(cid)(e)
    ensures Says(AnswerOf(s, e), TheSignal(UnpinFinished(cid, false, error))) == RemovalFails(cid, error)(e)
  {
    hide ContainsNotFound, SaysNotFound;
    if e.Removed? {
      SaysNotFoundIs(e.error);
    }
  }

  // A removal is told to have succeeded exactly as often as one of that CID did or found nothing to remove, and to
  // have failed with an error as often as one failed with that.
  lemma RemovalsAreAnsweredTruly(events: seq<Event>, cid: string, error: string)
    ensures Count(Run(events).signals, UnpinnedSignal(cid)) == Count(events, RemovedEvent(cid))
    ensures Count(Run(events).signals, TheSignal(UnpinFinished(cid, false, error))) == Count(events, RemovalFails(cid, error))
  {
    var good, bad := UnpinnedSignal(cid), TheSignal(UnpinFinished(cid, false, error));
    forall s, e
      ensures Count(Step(s, e).signals, good) == Count(s.signals, good) + Bit(OfAny(RemovedEvent(cid))(s, e))
      ensures Count(Step(s, e).signals, bad) == Count(s.signals, bad) + Bit(OfAny(RemovalFails(cid, error))(s, e))
    {
      hide Count, Step, AnswerOf;
      StepTells(s, e, good);
      StepTells(s, e, bad);
      RemovalAnswers(s, e, cid, error);
    }
    hide Step, Count, When, OfAny;
    SignalsOver(events, good, OfAny(RemovedEvent(cid)));
    WhenIsCount(events, RemovedEvent(cid));
    SignalsOver(events, bad, OfAny(RemovalFails(cid, error)));
    WhenIsCount(events, RemovalFails(cid, error));
  }

  // ----- calls -----

  // The call a step makes.
  function CallOf(s: Store, e: Event): Option<Call> {
    if |Step(s, e).calls| > |s.calls| then Some(Step(s, e).calls[|s.calls|]) else None
  }

  lemma OneCall(s: Store, e: Event)
    ensures Step(s, e).calls == if CallOf(s, e).Some? then s.calls + [CallOf(s, e).value] else s.calls
  {
    hide ContainsNotFound, Announce, Count;
    if e.Started? {
      AnnounceKeeps(s, e.up, s.startedSubscribers);
    }
  }

  function TheCall(call: Call): Call -> bool {
    (c: Call) => c == call
  }

  // Which event makes the client call the transport.
  function Asks(call: Call): (Store, Event) -> bool {
    (s: Store, e: Event) =>
      match call
      case InitAndStart => e == InitStorage && !s.initInFlight
      case Ping => e == PollHealth && !s.initInFlight
      case Fetch(cid) => e == Pin(cid) && cid !in s.pinning
      case Send(path) => e == Upload(path) && !s.uploading
      case RemoveCid(cid) => e == Unpin(cid)
  }

  lemma StartAsksNothing(s: Store, up: bool, call: Call)
    ensures CallOf(s, Started(up)) == None && !Asks(call)(s, Started(up))
  {
    hide Announce, Count;
    AnnounceKeeps(s, up, s.startedSubscribers);
  }

  lemma CallIsAskedFor(s: Store, e: Event, call: Call)
    ensures CallOf(s, e) == Some(call) <==> Asks(call)(s, e)
  {
    hide ContainsNotFound, Announce;
    if e.Started? {
      hide Step, Asks;
      StartAsksNothing(s, e.up, call);
    }
  }

  // The transport is called for each pin, upload, removal, bring-up and ping that is due, once, and for no other.
  lemma CallsAreAskedFor(events: seq<Event>, call: Call)
    ensures Count(Run(events).calls, TheCall(call)) == When(events, Asks(call))
  {
    var asked := TheCall(call);
    forall s, e ensures Count(Step(s, e).calls, asked) == Count(s.calls, asked) + Bit(Asks(call)(s, e)) {
      hide Count, Step, CallOf, Asks;
      OneCall(s, e);
      CallIsAskedFor(s, e, call);
      if CallOf(s, e).Some? {
        CountOneMore(s.calls, CallOf(s, e).value, asked);
      }
    }
    hide Step, Count, When, Asks;
    CallsOver(events, asked, Asks(call));
  }

  // ----- bring-up -----

  // A bring-up was begun and has not been answered since.
  function BringingUp(events: seq<Event>): bool {
    events != [] &&
    var last := events[|events| - 1];
    if last.InitStorage? then true else if last.InitDone? then false else BringingUp(events[..|events| - 1])
  }

  lemma InitUntouched(s: Store, e: Event)
    requires !e.InitStorage? && !e.InitDone?
    ensures var r := Step(s, e);
            && r.initInFlight == s.initInFlight && r.startedSubscribers == s.startedSubscribers
            && r.uploadSubscribed == s.uploadSubscribed
  {
    hide ContainsNotFound, Announce, Count;
    if e.Started? {
      AnnounceKeeps(s, e.up, s.startedSubscribers);
    }
  }

  lemma InitStep(s: Store, e: Event)
    ensures var r := Step(s, e);
            && r.initInFlight == (if e.InitStorage? then true else if e.InitDone? then false else s.initInFlight)
            && r.startedSubscribers == s.startedSubscribers + Bit(Asks(InitAndStart)(s, e))
            && r.uploadSubscribed == (s.uploadSubscribed || Asks(InitAndStart)(s, e))
  {
    if !e.InitStorage? && !e.InitDone? {
      hide Step;
      InitUntouched(s, e);
    }
  }

  // Bring-ups and pings wait for the answer of a bring-up and for nothing else; each bring-up that is not held back
  // subscribes to the start event once more, and the first to the end of uploads.
  lemma {:induction false} BringUpsCount(events: seq<Event>)
    ensures Run(events).initInFlight == BringingUp(events)
    ensures Run(events).startedSubscribers == When(events, Asks(InitAndStart))
    ensures Run(events).uploadSubscribed <==> Run(events).startedSubscribers > 0
  {
    hide Step, Asks;
    if events != [] {
      BringUpsCount(events[..|events| - 1]);
      InitStep(Run(events[..|events| - 1]), events[|events| - 1]);
    }
  }

  // ----- readiness -----

  // What the last health signal said; the client starts out offline.
  function LastHealth(signals: seq<Signal>): Readiness {
    if signals == [] then Offline
    else if signals[|signals| - 1].HealthChanged? then signals[|signals| - 1].state
    else LastHealth(signals[..|signals| - 1])
  }

  lemma {:induction false} AnnounceHealth(s: Store, up: bool, n: nat)
    requires LastHealth(s.signals) == s.state
    ensures LastHealth(Announce(s, up, n).signals) == Announce(s, up, n).state
  {
    if n > 0 {
      AnnounceHealth(s, up, n - 1);
    }
  }

  lemma LastSaid(signals: seq<Signal>, g: Signal)
    ensures LastHealth(signals + [g]) == if g.HealthChanged? then g.state else LastHealth(signals)
  {
    assert (signals + [g])[..|signals|] == signals;
  }

  lemma NodeSpoke(s: Store, e: Event)
    requires LastHealth(s.signals) == s.state && (e.InitDone? || e.Pinged?)
    ensures LastHealth(Step(s, e).signals) == Step(s, e).state
  {
    hide LastHealth;
    forall state ensures LastHealth(s.signals + [HealthChanged(state)]) == state {
      LastSaid(s.signals, HealthChanged(state));
    }
  }

  lemma NothingSaid(s: Store, e: Event)
    requires !e.Started? && !e.InitDone? && !e.Pinged?
    ensures LastHealth(Step(s, e).signals) == LastHealth(s.signals) && Step(s, e).state == s.state
  {
    hide LastHealth, ContainsNotFound;
    if !Readiness(e) {
      OneAnswer(s, e);
      if AnswerOf(s, e).Some? {
        LastSaid(s.signals, AnswerOf(s, e).value);
      }
    }
  }

  lemma HealthStep(s: Store, e: Event)
    requires LastHealth(s.signals) == s.state
    ensures LastHealth(Step(s, e).signals) == Step(s, e).state
  {
    hide ContainsNotFound, LastHealth;
    if e.Started? {
      hide Announce;
      AnnounceHealth(s, e.up, s.startedSubscribers);
    } else {
      hide Step;
      if e.InitDone? || e.Pinged? {
        NodeSpoke(s, e);
      } else {
        NothingSaid(s, e);
      }
    }
  }

  // The state a listener was told last is the state.
  lemma {:induction false} ListenersKnowTheState(events: seq<Event>)
    ensures LastHealth(Run(events).signals) == Run(events).state
  {
    hide Step, LastHealth;
    if events == [] {
      NothingTold();
    } else {
      ListenersKnowTheState(events[..|events| - 1]);
      HealthStep(Run(events[..|events| - 1]), events[|events| - 1]);
    }
  }

  lemma NothingTold()
    ensures LastHealth([]) == Offline
  {
  }

  // Each verdict of the node is taken over: down at a failed bring-up, start or ping; ready at a start, at an
  // instance already running, and at a ping once it was up.
  lemma VerdictsCount(s: Store)
    ensures Step(s, InitDone(false, "")).state == Step(s, Pinged(false)).state == Offline
    ensures s.startedSubscribers > 0 ==> Step(s, Started(false)).state == Offline && Step(s, Started(true)).state == Ready
    ensures forall error :: Step(s, InitDone(true, error)).state == if error == "already_running" then Ready else Starting
    ensures Step(s, Pinged(true)).state ==
            if s.everReady then Ready else if s.state == Offline then Starting else s.state
  {
    AnnounceKeeps(s, false, s.startedSubscribers);
    AnnounceKeeps(s, true, s.startedSubscribers);
  }
}
