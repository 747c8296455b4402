/** The readiness machine and the in-flight guards of the storage side (src/storage_client.cpp). Every
    call a caller makes and every callback the transport fires is one event; Step says what the client
    does with it, and the class below is the program's own object, proved against Step. */
module StorageClients {
  import opened Basics

  datatype Readiness = Offline | Starting | Ready

  datatype Signal =
    | HealthChanged(state: Readiness)
    | PinFinished(cid: string, ok: bool, error: string)
    | UploadFinished(ok: bool, cid: string, error: string)
    | UnpinFinished(cid: string, ok: bool, error: string)

  // What the client asks of the transport.
  datatype Call = InitAndStart | Ping | Fetch(cid: string) | Send(path: string) | RemoveCid(cid: string)

  datatype Event =
    | InitStorage
    | PollHealth
    | Pin(cid: string)
    | Upload(path: string)
    | Unpin(cid: string)
    | Started(up: bool)
    | InitDone(up: bool, error: string)
    | Pinged(up: bool)
    | Fetched(cid: string, ok: bool, error: string)
    | UploadAcked(accepted: bool, error: string)
    | UploadDone(ok: bool, cid: string, error: string)
    | Removed(cid: string, ok: bool, error: string)

  datatype Store = Store(
    state: Readiness, pinning: set<string>, initInFlight: bool, uploading: bool,
    uploadSubscribed: bool, startedSubscribers: nat, everReady: bool,
    signals: seq<Signal>, calls: seq<Call>)

  const FRESH := Store(Offline, {}, false, false, false, 0, false, [], [])

  const NOT_FOUND := "not found"

  predicate ContainsNotFound(error: string) {
    exists i | 0 <= i <= |error| :: StartsWith(ToLower(error)[i..], NOT_FOUND)
  }

  function Emit(s: Store, signal: Signal): Store {
    s.(signals := s.signals + [signal])
  }

  function Ask(s: Store, call: Call): Store {
    s.(calls := s.calls + [call])
  }

  function SetState(s: Store, state: Readiness): Store {
    Emit(s.(state := state), HealthChanged(state))
  }

  function Init(s: Store): Store {
    if s.initInFlight then s
    else
      Ask(s.(initInFlight := true, uploadSubscribed := true, startedSubscribers := s.startedSubscribers + 1),
          InitAndStart)
  }

  // The start event reaches every subscription made so far; each sets the state again.
  function Announce(s: Store, up: bool, n: nat): Store {
    if n == 0 then s
    else SetState(Announce(s, up, n - 1).(everReady := s.everReady || up), if up then Ready else Offline)
  }

  function InitAnswered(s: Store, up: bool, error: string): Store {
    var s1 := s.(initInFlight := false);
    if !up then SetState(s1, Offline)
    else if error == "already_running" then SetState(s1.(everReady := true), Ready)
    else SetState(s1, Starting)
  }

  function PingAnswered(s: Store, up: bool): Store {
    if !up then SetState(s, Offline)
    else if s.everReady then SetState(s, Ready)
    else if s.state == Offline then SetState(s, Starting)
    else Emit(s, HealthChanged(s.state))
  }

  function StartPin(s: Store, cid: string): Store {
    if cid in s.pinning then Emit(s, PinFinished(cid, false, "pin_in_progress"))
    else Ask(s.(pinning := s.pinning + {cid}), Fetch(cid))
  }

  function StartUpload(s: Store, path: string): Store {
    if s.uploading then Emit(s, UploadFinished(false, "", "upload_in_progress"))
    else Ask(s.(uploading := true), Send(path))
  }

  function UploadRejected(s: Store, error: string): Store {
    Emit(s.(uploading := false), UploadFinished(false, "", error))
  }

  function UploadCompleted(s: Store, ok: bool, cid: string, error: string): Store {
    if s.uploadSubscribed && s.uploading then Emit(s.(uploading := false), UploadFinished(ok, cid, error)) else s
  }

  function RemoveAnswered(s: Store, cid: string, ok: bool, error: string): Store {
    if ok || ContainsNotFound(error) then Emit(s, UnpinFinished(cid, true, ""))
    else Emit(s, UnpinFinished(cid, false, error))
  }

  function Step(s: Store, e: Event): Store {
    match e
    case InitStorage => Init(s)
    case PollHealth => if s.initInFlight then s else Ask(s, Ping)
    case Pin(cid) => StartPin(s, cid)
    case Upload(path) => StartUpload(s, path)
    case Unpin(cid) => Ask(s, RemoveCid(cid))
    case Started(up) => Announce(s, up, s.startedSubscribers)
    case InitDone(up, error) => InitAnswered(s, up, error)
    case Pinged(up) => PingAnswered(s, up)
    case Fetched(cid, ok, error) =>
      Emit(s.(pinning := s.pinning - {cid}), PinFinished(cid, ok, if ok then "" else error))
    case UploadAcked(accepted, error) => if accepted then s else UploadRejected(s, error)
    case UploadDone(ok, cid, error) => UploadCompleted(s, ok, cid, error)
    case Removed(cid, ok, error) => RemoveAnswered(s, cid, ok, error)
  }

  // The client after any order of events, from the start of the process.
  function Run(events: seq<Event>): Store {
    if events == [] then FRESH else Step(Run(events[..|events| - 1]), events[|events| - 1])
  }

  // ----- counting -----

  function Count<T>(s: seq<T>, p: T -> bool): nat {
    if s == [] then 0 else Count(s[..|s| - 1], p) + if p(s[|s| - 1]) then 1 else 0
  }

  lemma CountOneMore<T>(s: seq<T>, x: T, p: T -> bool)
    ensures Count(s + [x], p) == Count(s, p) + if p(x) then 1 else 0
  {
    assert (s + [x])[..|s|] == s;
  }

  predicate IsUpload(e: Event) { e.Upload? }

  predicate IsPin(e: Event) { e.Pin? }

  predicate IsUploadFinished(g: Signal) { g.UploadFinished? }

  predicate IsPinFinished(g: Signal) { g.PinFinished? }

  // A refusal that arrives while no upload is outstanding, and a fetch answered that nobody waits for.
  predicate StrayRefusal(s: Store, e: Event) {
    e.UploadAcked? && !e.accepted && !s.uploading
  }

  predicate StrayFetch(s: Store, e: Event) {
    e.Fetched? && e.cid !in s.pinning
  }

  function StrayRefusals(events: seq<Event>): nat {
    if events == [] then 0
    else
      var before := events[..|events| - 1];
      StrayRefusals(before) + Bit(StrayRefusal(Run(before), events[|events| - 1]))
  }

  function StrayFetches(events: seq<Event>): nat {
    if events == [] then 0
    else
      var before := events[..|events| - 1];
      StrayFetches(before) + Bit(StrayFetch(Run(before), events[|events| - 1]))
  }

  lemma AnnounceKeeps(s: Store, up: bool, n: nat)
    ensures var r := Announce(s, up, n);
            && r == s.(state := r.state, everReady := r.everReady, signals := r.signals)
            && r.state == (if n == 0 then s.state else if up then Ready else Offline)
            && r.everReady == (s.everReady || (up && n > 0))
            && Count(r.signals, IsUploadFinished) == Count(s.signals, IsUploadFinished)
            && Count(r.signals, IsPinFinished) == Count(s.signals, IsPinFinished)
  {
    if n > 0 {
      AnnounceKeeps(s, up, n - 1);
      var prior := Announce(s, up, n - 1);
      var note := HealthChanged(if up then Ready else Offline);
      CountOneMore(prior.signals, note, IsUploadFinished);
      CountOneMore(prior.signals, note, IsPinFinished);
    }
  }

  lemma Emitted(s: Store, g: Signal)
    ensures Count(Emit(s, g).signals, IsUploadFinished) == Count(s.signals, IsUploadFinished) + Bit(g.UploadFinished?)
    ensures Count(Emit(s, g).signals, IsPinFinished) == Count(s.signals, IsPinFinished) + Bit(g.PinFinished?)
  {
    CountOneMore(s.signals, g, IsUploadFinished);
    CountOneMore(s.signals, g, IsPinFinished);
  }

  function Answered(s: Store, p: Signal -> bool): nat {
    Count(s.signals, p)
  }

  // The readiness events answer neither an upload nor a pin.
  lemma ReadinessStep(s: Store, e: Event)
    requires e.InitStorage? || e.PollHealth? || e.Started? || e.InitDone? || e.Pinged?
    ensures var r := Step(s, e);
            && r.uploading == s.uploading && r.pinning == s.pinning
            && Answered(r, IsUploadFinished) == Answered(s, IsUploadFinished)
            && Answered(r, IsPinFinished) == Answered(s, IsPinFinished)
  {
    hide Count;
    match e
    case Started(up) => AnnounceKeeps(s, up, s.startedSubscribers);
    case InitDone(up, error) =>
      var s1 := s.(initInFlight := false);
      Emitted(s1.(state := Offline), HealthChanged(Offline));
      Emitted(s1.(everReady := true, state := Ready), HealthChanged(Ready));
      Emitted(s1.(state := Starting), HealthChanged(Starting));
    case Pinged(up) =>
      Emitted(s, HealthChanged(s.state));
      Emitted(s.(state := Offline), HealthChanged(Offline));
      Emitted(s.(state := Ready), HealthChanged(Ready));
      Emitted(s.(state := Starting), HealthChanged(Starting));
    case _ =>
  }

  // How one step moves the two balances.
  predicate Balanced(s: Store, r: Store, e: Event) {
    && Answered(r, IsUploadFinished) + Bit(r.uploading) ==
       Answered(s, IsUploadFinished) + Bit(s.uploading) + Bit(e.Upload?) + Bit(StrayRefusal(s, e))
    && Answered(r, IsPinFinished) + |r.pinning| ==
       Answered(s, IsPinFinished) + |s.pinning| + Bit(e.Pin?) + Bit(StrayFetch(s, e))
  }

  lemma PinStep(s: Store, cid: string)
    ensures Balanced(s, Step(s, Pin(cid)), Pin(cid))
  {
    hide Count;
    Emitted(s, PinFinished(cid, false, "pin_in_progress"));
  }

  lemma FetchedStep(s: Store, cid: string, ok: bool, error: string)
    ensures Balanced(s, Step(s, Fetched(cid, ok, error)), Fetched(cid, ok, error))
  {
    hide Count;
    var s1 := s.(pinning := s.pinning - {cid});
    assert cid !in s.pinning ==> s1.pinning == s.pinning;
    Emitted(s1, PinFinished(cid, ok, if ok then "" else error));
  }

  lemma UnpinStep(s: Store, e: Event)
    requires e.Unpin? || e.Removed?
    ensures Balanced(s, Step(s, e), e)
  {
    hide Count, ContainsNotFound;
    if e.Removed? {
      Emitted(s, UnpinFinished(e.cid, true, ""));
      Emitted(s, UnpinFinished(e.cid, false, e.error));
    }
  }

  lemma UploadStep(s: Store, e: Event)
    requires e.Upload? || e.UploadAcked? || e.UploadDone?
    ensures Balanced(s, Step(s, e), e)
  {
    hide Count;
    match e
    case Upload(path) => Emitted(s, UploadFinished(false, "", "upload_in_progress"));
    case UploadAcked(accepted, error) => Emitted(s.(uploading := false), UploadFinished(false, "", error));
    case UploadDone(ok, cid, error) => Emitted(s.(uploading := false), UploadFinished(ok, cid, error));
  }

  lemma Balance(s: Store, e: Event)
    ensures Balanced(s, Step(s, e), e)
  {
    hide Step, Answered;
    if e.InitStorage? || e.PollHealth? || e.Started? || e.InitDone? || e.Pinged? {
      ReadinessStep(s, e);
    } else if e.Upload? || e.UploadAcked? || e.UploadDone? {
      UploadStep(s, e);
    } else if e.Pin? {
      PinStep(s, e.cid);
    } else if e.Fetched? {
      FetchedStep(s, e.cid, e.ok, e.error);
    } else {
      UnpinStep(s, e);
    }
  }

  // Every upload asked for is answered by one uploadFinished or is the one still outstanding; the
  // only answers too many are the refusals that arrive while nothing is outstanding.
  lemma {:induction false} UploadsConserved(events: seq<Event>)
    ensures Count(events, IsUpload) + StrayRefusals(events) ==
            Count(Run(events).signals, IsUploadFinished) + Bit(Run(events).uploading)
  {
    hide Step;
    if events != [] {
      var before, e := events[..|events| - 1], events[|events| - 1];
      UploadsConserved(before);
      Balance(Run(before), e);
    }
  }

  // The same for pins, where every CID has its own outstanding slot.
  lemma {:induction false} PinsConserved(events: seq<Event>)
    ensures Count(events, IsPin) + StrayFetches(events) ==
            Count(Run(events).signals, IsPinFinished) + |Run(events).pinning|
  {
    hide Step;
    if events != [] {
      var before, e := events[..|events| - 1], events[|events| - 1];
      PinsConserved(before);
      Balance(Run(before), e);
    }
  }

  // The transport of the program answers an upload call before it returns: the acknowledgement of a
  // call that was handed on is the very next event, and there is no other.
  predicate AcksAtOnce(events: seq<Event>) {
    forall i | 0 <= i < |events| && events[i].UploadAcked? ::
      i > 0 && events[i - 1].Upload? && !Run(events[..i - 1]).uploading
  }

  // It answers every fetch once: an answer comes only for a CID that waits for one.
  predicate FetchesAnsweredOnce(events: seq<Event>) {
    forall i | 0 <= i < |events| && events[i].Fetched? :: events[i].cid in Run(events[..i]).pinning
  }

  lemma AckFollowsSend(before: seq<Event>)
    requires before != [] && before[|before| - 1].Upload? && !Run(before[..|before| - 1]).uploading
    ensures Run(before).uploading
  {
  }

  lemma {:induction false} NoStrayRefusals(events: seq<Event>)
    requires AcksAtOnce(events)
    ensures StrayRefusals(events) == 0
  {
    if events != [] {
      var before := events[..|events| - 1];
      forall i | 0 <= i < |before| && before[i].UploadAcked?
        ensures i > 0 && before[i - 1].Upload? && !Run(before[..i - 1]).uploading
      {
        assert events[i].UploadAcked?;
        assert events[..i - 1] == before[..i - 1];
      }
      NoStrayRefusals(before);
      if events[|before|].UploadAcked? {
        assert events[..|before| - 1] == before[..|before| - 1];
        AckFollowsSend(before);
      }
    }
  }

  lemma {:induction false} NoStrayFetches(events: seq<Event>)
    ensures FetchesAnsweredOnce(events) <==> StrayFetches(events) == 0
  {
    if events != [] {
      var before := events[..|events| - 1];
      forall i | 0 <= i < |before| ensures events[..i] == before[..i] {
      }
      NoStrayFetches(before);
      assert events[..|before|] == before;
      assert FetchesAnsweredOnce(events) <==>
             FetchesAnsweredOnce(before) && !StrayFetch(Run(before), events[|before|]) by {
        FetchesSplit(events);
      }
    }
  }

  lemma FetchesSplit(events: seq<Event>)
    requires events != []
    ensures var before := events[..|events| - 1];
            FetchesAnsweredOnce(events) <==>
            FetchesAnsweredOnce(before) && !StrayFetch(Run(before), events[|before|])
  {
    hide Run, StrayFetch;
    var before := events[..|events| - 1];
    SplitFetch(Run(before), events[|before|]);
    forall i | 0 <= i < |before| ensures events[..i] == before[..i] && events[i] == before[i] {
    }
    assert events[..|before|] == before;
    if FetchesAnsweredOnce(events) {
      forall i | 0 <= i < |before| && before[i].Fetched? ensures before[i].cid in Run(before[..i]).pinning {
        assert events[i].cid in Run(events[..i]).pinning;
      }
    } else {
      var i :| 0 <= i < |events| && events[i].Fetched? && events[i].cid !in Run(events[..i]).pinning;
      if i < |before| {
        assert before[i].cid !in Run(before[..i]).pinning;
      }
    }
  }

  lemma SplitFetch(s: Store, e: Event)
    ensures StrayFetch(s, e) <==> e.Fetched? && e.cid !in s.pinning
  {
  }

  // With the program's transport every upload and every pin is answered exactly once.
  lemma EveryCallAnsweredOnce(events: seq<Event>)
    requires AcksAtOnce(events) && FetchesAnsweredOnce(events)
    ensures Count(events, IsUpload) == Count(Run(events).signals, IsUploadFinished) + Bit(Run(events).uploading)
    ensures Count(events, IsPin) == Count(Run(events).signals, IsPinFinished) + |Run(events).pinning|
  {
    UploadsConserved(events);
    PinsConserved(events);
    NoStrayRefusals(events);
    NoStrayFetches(events);
  }

  // A transport that acknowledges later does not give that: another consumer's completion event, taken
  // for ours, followed by the refusal of our call finishes one upload twice.
  lemma ForeignCompletionThenRefusal()
    ensures var events := [InitStorage, Upload("f"), UploadDone(true, "z", ""), UploadAcked(false, "busy")];
            Count(events, IsUpload) == 1 && Count(Run(events).signals, IsUploadFinished) == 2
  {
    hide Run, Count;
    var e1 := [InitStorage, Upload("f")];
    var e2 := e1 + [UploadDone(true, "z", "")];
    var e3 := e2 + [UploadAcked(false, "busy")];
    assert e3 == [InitStorage, Upload("f"), UploadDone(true, "z", ""), UploadAcked(false, "busy")];
    OutstandingUpload();
    ForeignCompletion(e1, "z");
    LateRefusal(e2, "busy");
    UploadsOf(e1, UploadDone(true, "z", ""));
    UploadsOf(e2, UploadAcked(false, "busy"));
  }

  lemma ForeignCompletion(events: seq<Event>, cid: string)
    requires Run(events).uploading && Run(events).uploadSubscribed
    ensures Count(Run(events + [UploadDone(true, cid, "")]).signals, IsUploadFinished) ==
            Count(Run(events).signals, IsUploadFinished) + 1
  {
    hide Run, Count;
    RunStep(events, UploadDone(true, cid, ""));
    Emitted(Run(events).(uploading := false), UploadFinished(true, cid, ""));
  }

  // A refusal always counts as one more answer, outstanding upload or not.
  lemma LateRefusal(events: seq<Event>, error: string)
    ensures Count(Run(events + [UploadAcked(false, error)]).signals, IsUploadFinished) ==
            Count(Run(events).signals, IsUploadFinished) + 1
  {
    hide Run, Count;
    RunStep(events, UploadAcked(false, error));
    Emitted(Run(events).(uploading := false), UploadFinished(false, "", error));
  }

  lemma UploadsOf(events: seq<Event>, e: Event)
    ensures Count(events + [e], IsUpload) == Count(events, IsUpload) + Bit(e.Upload?)
  {
    CountOneMore(events, e, IsUpload);
  }

  lemma RunStep(events: seq<Event>, e: Event)
    ensures Run(events + [e]) == Step(Run(events), e)
  {
    assert (events + [e])[..|events|] == events;
  }

  lemma OutstandingUpload()
    ensures var s := Run([InitStorage, Upload("f")]);
            s.uploading && s.uploadSubscribed && s.signals == []
    ensures Count([InitStorage, Upload("f")], IsUpload) == 1
    ensures Count<Signal>([], IsUploadFinished) == 0
  {
    hide Run, Count;
    FirstSteps();
    assert [] + [InitStorage] == [InitStorage];
    assert [InitStorage] + [Upload("f")] == [InitStorage, Upload("f")];
    RunStep([], InitStorage);
    RunStep([InitStorage], Upload("f"));
    UploadsOf([], InitStorage);
    UploadsOf([InitStorage], Upload("f"));
  }

  lemma FirstSteps()
    ensures Run([]) == FRESH && Count<Event>([], IsUpload) == 0 && Count<Signal>([], IsUploadFinished) == 0
  {
  }

  // ----- one upload at a time -----

  predicate SettlesUpload(s: Store, e: Event) {
    s.uploading && ((e.UploadDone? && s.uploadSubscribed) || (e.UploadAcked? && !e.accepted))
  }

  predicate HandsOver(s: Store, e: Event) {
    e.Upload? && !s.uploading
  }

  // Between two uploads handed to the transport the first was settled: there is never a second outstanding.
  lemma {:induction false} OneUploadAtATime(events: seq<Event>, i: nat, j: nat)
    requires i < j < |events|
    requires HandsOver(Run(events[..i]), events[i]) && HandsOver(Run(events[..j]), events[j])
    ensures exists k | i < k < j :: SettlesUpload(Run(events[..k]), events[k])
  {
    if forall k | i < k < j :: !SettlesUpload(Run(events[..k]), events[k]) {
      StaysOutstanding(events, i, j);
    }
  }

  lemma {:induction false} StaysOutstanding(events: seq<Event>, i: nat, j: nat)
    requires i < j <= |events|
    requires HandsOver(Run(events[..i]), events[i])
    requires forall k | i < k < j :: !SettlesUpload(Run(events[..k]), events[k])
    ensures Run(events[..j]).uploading
  {
    hide SettlesUpload;
    assert events[..j][..j - 1] == events[..j - 1];
    if j > i + 1 {
      StaysOutstanding(events, i, j - 1);
      KeepsOutstanding(Run(events[..j - 1]), events[j - 1]);
    }
  }

  lemma KeepsOutstanding(s: Store, e: Event)
    requires s.uploading && !SettlesUpload(s, e)
    ensures Step(s, e).uploading
  {
    if e.Started? {
      AnnounceKeeps(s, e.up, s.startedSubscribers);
    }
  }

  // ----- readiness -----

  // The node completed its bootstrap: its start event came to a subscriber, or an instance already ran.
  predicate CameUp(s: Store, e: Event) {
    || (e.Started? && e.up && s.startedSubscribers > 0)
    || (e.InitDone? && e.up && e.error == "already_running")
  }

  lemma ReadyStep(s: Store, e: Event)
    ensures Step(s, e).everReady == (s.everReady || CameUp(s, e))
    ensures Step(s, e).state == Ready ==> s.state == Ready || Step(s, e).everReady
  {
    if e.Started? {
      AnnounceKeeps(s, e.up, s.startedSubscribers);
    }
  }

  // The client remembers exactly whether the node was ever fully up, and calls itself ready only then:
  // a ping alone never turns a node that has not finished its bootstrap green.
  lemma {:induction false} ReadyOnlyOnceUp(events: seq<Event>)
    ensures Run(events).everReady <==> exists i | 0 <= i < |events| :: CameUp(Run(events[..i]), events[i])
    ensures Run(events).state == Ready ==> Run(events).everReady
  {
    hide CameUp, Step;
    if events != [] {
      var before, e := events[..|events| - 1], events[|events| - 1];
      ReadyOnlyOnceUp(before);
      ReadyStep(Run(before), e);
      forall i | 0 <= i < |before| ensures events[..i] == before[..i] {
      }
      if Run(before).everReady {
        var i :| 0 <= i < |before| && CameUp(Run(before[..i]), before[i]);
        assert CameUp(Run(events[..i]), events[i]);
      } else if Run(events).everReady {
        assert CameUp(Run(events[..|before|]), events[|before|]);
      } else {
        forall i | 0 <= i < |events| ensures !CameUp(Run(events[..i]), events[i]) {
          if i < |before| {
            assert !CameUp(Run(before[..i]), before[i]);
          }
        }
      }
    }
  }

  // Once up, a successful ping restores ready after any number of failures.
  lemma PingRestores(events: seq<Event>)
    requires Run(events).everReady
    ensures Run(events + [Pinged(false), Pinged(true)]).state == Ready
  {
    var e1 := events + [Pinged(false)];
    var e2 := events + [Pinged(false), Pinged(true)];
    assert e1[..|events|] == events && e2[..|e1|] == e1;
  }

  // ----- the program's object -----

  class StorageClient {
    var storageState: Readiness
    var pinning: set<string>
    var initInFlight: bool
    var uploading: bool
    var uploadSubscribed: bool
    var startedSubscribers: nat
    var everReady: bool
    var signals: seq<Signal>
    var calls: seq<Call>

    ghost function Model(): Store
      reads this
    {
      Store(storageState, pinning, initInFlight, uploading, uploadSubscribed, startedSubscribers, everReady,
            signals, calls)
    }

    constructor ()
      ensures Model() == FRESH
    {
      storageState, pinning, initInFlight, uploading := Offline, {}, false, false;
      uploadSubscribed, startedSubscribers, everReady := false, 0, false;
      signals, calls := [], [];
    }

    method SetReadiness(state: Readiness)
      modifies this`storageState, this`signals
      ensures Model() == SetState(old(Model()), state)
    {
      storageState := state;
      signals := signals + [HealthChanged(state)];
    }

    method InitStorage()
      modifies this
      ensures Model() == Step(old(Model()), Event.InitStorage)
    {
      if initInFlight {
        return;
      }
      initInFlight := true;
      if !uploadSubscribed {
        uploadSubscribed := true;
      }
      startedSubscribers := startedSubscribers + 1;
      calls := calls + [InitAndStart];
    }

    // The storageStart event, delivered to every subscription in turn.
    method OnStarted(up: bool)
      modifies this
      ensures Model() == Step(old(Model()), Started(up))
    {
      for n := 0 to startedSubscribers
        invariant Model() == Announce(old(Model()), up, n)
        invariant startedSubscribers == old(startedSubscribers)
      {
        if up {
          everReady := true;
        }
        SetReadiness(if up then Ready else Offline);
        AnnounceKeeps(old(Model()), up, n);
      }
    }

    method OnInitDone(up: bool, error: string)
      modifies this
      ensures Model() == Step(old(Model()), InitDone(up, error))
    {
      initInFlight := false;
      if !up {
        SetReadiness(Offline);
        return;
      }
      if error == "already_running" {
        everReady := true;
        SetReadiness(Ready);
      } else {
        SetReadiness(Starting);
      }
    }

    method PollHealth()
      modifies this
      ensures Model() == Step(old(Model()), Event.PollHealth)
    {
      if initInFlight {
        return;
      }
      calls := calls + [Ping];
    }

    method OnPing(up: bool)
      modifies this
      ensures Model() == Step(old(Model()), Pinged(up))
    {
      if !up {
        SetReadiness(Offline);
        return;
      }
      if everReady {
        SetReadiness(Ready);
      } else if storageState == Offline {
        SetReadiness(Starting);
      } else {
        signals := signals + [HealthChanged(storageState)];
      }
    }

    method Pin(cid: string)
      modifies this
      ensures Model() == Step(old(Model()), Event.Pin(cid))
    {
      if cid in pinning {
        signals := signals + [PinFinished(cid, false, "pin_in_progress")];
        return;
      }
      pinning := pinning + {cid};
      calls := calls + [Fetch(cid)];
    }

    method OnFetched(cid: string, ok: bool, error: string)
      modifies this
      ensures Model() == Step(old(Model()), Fetched(cid, ok, error))
    {
      pinning := pinning - {cid};
      signals := signals + [PinFinished(cid, ok, if ok then "" else error)];
    }

    method Upload(path: string)
      modifies this
      ensures Model() == Step(old(Model()), Event.Upload(path))
    {
      if uploading {
        signals := signals + [UploadFinished(false, "", "upload_in_progress")];
        return;
      }
      uploading := true;
      calls := calls + [Send(path)];
    }

    method OnUploadAck(accepted: bool, error: string)
      modifies this
      ensures Model() == Step(old(Model()), UploadAcked(accepted, error))
    {
      if !accepted {
        uploading := false;
        signals := signals + [UploadFinished(false, "", error)];
      }
    }

    method OnUploadDone(ok: bool, cid: string, error: string)
      modifies this
      ensures Model() == Step(old(Model()), UploadDone(ok, cid, error))
    {
      if !uploadSubscribed || !uploading {
        return;
      }
      uploading := false;
      signals := signals + [UploadFinished(ok, cid, error)];
    }

    method Unpin(cid: string)
      modifies this
      ensures Model() == Step(old(Model()), Event.Unpin(cid))
    {
      calls := calls + [RemoveCid(cid)];
    }

    method OnRemoved(cid: string, ok: bool, error: string)
      modifies this
      ensures Model() == Step(old(Model()), Removed(cid, ok, error))
    {
      if !ok && ContainsNotFound(error) {
        signals := signals + [UnpinFinished(cid, true, "")];
        return;
      }
      signals := signals + [UnpinFinished(cid, ok, if ok then "" else error)];
    }
  }
}
