/** The client-side session bookkeeping of client/components/App.jsx as pure
    transitions over one record: what each handler does to the session flags,
    the event log and the channel's outgoing traffic. The class in App.dfy
    performs the same updates in place and is proved against these functions. */
module SessionModel {
  import opened Events
  import opened Captions

  /** `isSessionActive`; `events`, newest first; whether `dataChannel` and
      `peerConnection.current` are non-null; and the payloads handed to
      `dataChannel.send`, oldest first. */
  datatype State = State(
    active: bool,
    events: seq<Event>,
    hasChannel: bool,
    hasPeer: bool,
    sent: seq<Event>)

  /** The initial `useState`/`useRef` values. */
  function Initial(): (r: State)
    ensures !r.active && !r.hasChannel && !r.hasPeer
    ensures r.events == [] && r.sent == []
  {
    State(false, [], false, false, [])
  }

  /** `sendClientEvent(message)`: with a channel, stamp the id, transmit, then
      backfill the timestamp and prepend to the log; without one, drop it. */
  function Dispatch(st: State, m: Event, freshId: NonEmptyString, now: NonEmptyString): (r: State)
    ensures !st.hasChannel ==> r == st
    ensures r.active == st.active && r.hasChannel == st.hasChannel && r.hasPeer == st.hasPeer
    ensures st.hasChannel ==>
      && |r.events| == |st.events| + 1 && r.events[1..] == st.events
      && |r.sent| == |st.sent| + 1 && r.sent[..|st.sent|] == st.sent
    ensures st.hasChannel ==>
      var wire := r.sent[|st.sent|];
      // the transmitted payload is the caller's message with an id and nothing else added
      && wire.(eventId := m.eventId) == m
      && Present(wire.eventId)
      && (Present(m.eventId) ==> wire.eventId == m.eventId)
      && (!Present(m.eventId) ==> wire.eventId == Some(freshId))
      // the logged entry is the transmitted payload with a timestamp that is never overwritten
      && r.events[0].(timestamp := wire.timestamp) == wire
      && Present(r.events[0].timestamp)
      && (Present(m.timestamp) ==> r.events[0].timestamp == m.timestamp)
      && (!Present(m.timestamp) ==> r.events[0].timestamp == Some(now))
  {
    if !st.hasChannel then st
    else
      var wire := StampId(m, freshId);
      st.(sent := st.sent + [wire], events := [BackfillTimestamp(wire, now)] + st.events)
  }

  /** `sendTextMessage(text)`: a user-role item carrying the text, then `response.create`. */
  function SendText(st: State, text: string,
                    itemId: NonEmptyString, itemTime: NonEmptyString,
                    responseId: NonEmptyString, responseTime: NonEmptyString): (r: State)
    ensures !st.hasChannel ==> r == st
    ensures r.active == st.active && r.hasChannel == st.hasChannel && r.hasPeer == st.hasPeer
    ensures st.hasChannel ==> |r.events| == |st.events| + 2 && |r.sent| == |st.sent| + 2
  {
    var st1 := Dispatch(st, ConversationItem(UserRole, text), itemId, itemTime);
    Dispatch(st1, ResponseCreateEvent(), responseId, responseTime)
  }

  /** Two dispatches in order: with a channel, `response.create` heads the log,
      the user message carrying the text comes second, and both went out on the
      wire in that order; without a channel nothing happens. */
  lemma SendTextOrder(st: State, text: string, i1: NonEmptyString, t1: NonEmptyString,
                      i2: NonEmptyString, t2: NonEmptyString)
    ensures var r := SendText(st, text, i1, t1, i2, t2);
      && (!st.hasChannel ==> r == st)
      && (st.hasChannel ==>
            && |r.events| == |st.events| + 2 && r.events[2..] == st.events
            && r.events[0].kind == ResponseCreate
            && r.events[1].kind == ConversationItemCreate
            && r.events[1].item == Some(Message(UserRole, [InputText(text)]))
            && |r.sent| == |st.sent| + 2 && r.sent[..|st.sent|] == st.sent
            && r.sent[|st.sent|].kind == ConversationItemCreate
            && r.sent[|st.sent|].item == Some(Message(UserRole, [InputText(text)]))
            && r.sent[|st.sent| + 1].kind == ResponseCreate)
  {
    var st1 := Dispatch(st, ConversationItem(UserRole, text), i1, t1);
    var r := Dispatch(st1, ResponseCreateEvent(), i2, t2);
    if st.hasChannel {
      assert r.events[1..] == st1.events;
      assert r.events[2..] == st1.events[1..];
      assert r.sent[..|st.sent|] == st1.sent[..|st.sent|];
    }
  }

  /** `updateSystemPrompt(latestLogs)`: nothing for fewer than two entries,
      otherwise one dispatch of the system prompt built from the last two. */
  function UpdateSystemPrompt(st: State, latestLogs: seq<Event>,
                              freshId: NonEmptyString, now: NonEmptyString): (r: State)
    ensures |latestLogs| < 2 || !st.hasChannel ==> r == st
    ensures |latestLogs| >= 2 && st.hasChannel ==>
      |r.events| == |st.events| + 1 && |r.sent| == |st.sent| + 1
    ensures r.active == st.active && r.hasChannel == st.hasChannel && r.hasPeer == st.hasPeer
  {
    match SystemPromptFor(latestLogs)
    case None => st
    case Some(prompt) => Dispatch(st, prompt, freshId, now)
  }

  /** Below the threshold the state is untouched; at or above it, with a
      channel, a system-role item embedding the context of the last two
      entries heads the log and was transmitted. */
  lemma UpdateSystemPromptSpec(st: State, logs: seq<Event>, id: NonEmptyString, now: NonEmptyString)
    ensures |logs| < 2 ==> UpdateSystemPrompt(st, logs, id, now) == st
    ensures |logs| >= 2 && st.hasChannel ==>
      var r := UpdateSystemPrompt(st, logs, id, now);
      && r.events[1..] == st.events
      && r.sent[..|st.sent|] == st.sent && |r.sent| == |st.sent| + 1
      && r.events[0].kind == ConversationItemCreate
      && r.events[0].item == Some(Message(SystemRole, [InputText(PromptText(Context(logs)))]))
      && r.sent[|st.sent|].item == r.events[0].item
  {
    if |logs| >= 2 {
      var p := SystemPromptFor(logs).value;
      assert p.item.value.content[0].text == PromptText(Context(logs));
      assert p.item == Some(Message(SystemRole, [InputText(PromptText(Context(logs)))]));
    }
  }

  /** The channel's `message` listener: backfill the timestamp, prepend, and for
      `log.update` run `updateSystemPrompt` on the list that includes the event. */
  function OnMessage(st: State, e: Event, arrival: NonEmptyString,
                     freshId: NonEmptyString, now: NonEmptyString): (r: State)
    ensures r.active == st.active && r.hasChannel == st.hasChannel && r.hasPeer == st.hasPeer
    ensures e.kind != LogUpdate ==> |r.events| == |st.events| + 1 && r.sent == st.sent
    ensures e.kind == LogUpdate && (st.events == [] || !st.hasChannel) ==>
      |r.events| == |st.events| + 1 && r.sent == st.sent
    ensures e.kind == LogUpdate && st.events != [] && st.hasChannel ==>
      |r.events| == |st.events| + 2 && |r.sent| == |st.sent| + 1
  {
    var ev := BackfillTimestamp(e, arrival);
    var st1 := st.(events := [ev] + st.events);
    if ev.kind == LogUpdate then UpdateSystemPrompt(st1, st1.events, freshId, now) else st1
  }

  /** An inbound event other than `log.update` is prepended with its timestamp
      backfilled only if absent, and causes no dispatch. */
  lemma OnMessageOther(st: State, e: Event, arrival: NonEmptyString, id: NonEmptyString, now: NonEmptyString)
    requires e.kind != LogUpdate
    ensures OnMessage(st, e, arrival, id, now) == st.(events := [BackfillTimestamp(e, arrival)] + st.events)
    ensures Present(e.timestamp) ==> OnMessage(st, e, arrival, id, now).events[0] == e
  {
  }

  /** The first `log.update` of a session only lands in the log: one entry is
      below the prompt threshold. */
  lemma OnMessageFirstLog(st: State, e: Event, arrival: NonEmptyString, id: NonEmptyString, now: NonEmptyString)
    requires e.kind == LogUpdate && st.events == []
    ensures OnMessage(st, e, arrival, id, now) == st.(events := [BackfillTimestamp(e, arrival)])
  {
    assert SystemPromptFor([BackfillTimestamp(e, arrival)]).None?;
  }

  /** A `log.update` arriving on a non-empty log is prepended and then topped by
      exactly one transmitted system prompt built from the list that includes it. */
  lemma OnMessageLogUpdate(st: State, e: Event, arrival: NonEmptyString, id: NonEmptyString, now: NonEmptyString)
    requires e.kind == LogUpdate && st.events != [] && st.hasChannel
    ensures var r := OnMessage(st, e, arrival, id, now);
      var ev := BackfillTimestamp(e, arrival);
      && |r.events| == |st.events| + 2
      && r.events[1] == ev && r.events[2..] == st.events
      && r.events[0].item == Some(Message(SystemRole, [InputText(PromptText(Context([ev] + st.events)))]))
      && |r.sent| == |st.sent| + 1 && r.sent[..|st.sent|] == st.sent
      && r.sent[|st.sent|].item == r.events[0].item
  {
    var ev := BackfillTimestamp(e, arrival);
    var st1 := st.(events := [ev] + st.events);
    UpdateSystemPromptSpec(st1, st1.events, id, now);
    var r := OnMessage(st, e, arrival, id, now);
    assert r == UpdateSystemPrompt(st1, st1.events, id, now);
    assert r.events[1..] == [ev] + st.events;
    assert r.events[2..] == (r.events[1..])[1..];
  }

  /** Because the log is newest first, once it already held two entries the
      caption of the arriving `log.update` does not reach the prompt: the
      context is that of the two oldest entries. */
  lemma OnMessagePromptIgnoresArrival(st: State, e: Event, arrival: NonEmptyString,
                                      id: NonEmptyString, now: NonEmptyString)
    requires e.kind == LogUpdate && st.hasChannel && |st.events| >= 2
    ensures OnMessage(st, e, arrival, id, now).events[0].item ==
      Some(Message(SystemRole, [InputText(PromptText(Context(st.events)))]))
  {
    OnMessageLogUpdate(st, e, arrival, id, now);
    ContextIgnoresNewest(BackfillTimestamp(e, arrival), st.events);
  }

  /** The channel's `open` listener: the session is active and the log is empty. */
  function OnOpen(st: State): (r: State)
    ensures r.active && r.events == []
    ensures r.hasChannel == st.hasChannel && r.hasPeer == st.hasPeer && r.sent == st.sent
  {
    st.(active := true, events := [])
  }

  /** `stopSession()`: None is the TypeError thrown when `peerConnection.current`
      is null (it is dereferenced before being tested); otherwise the session
      is inactive, without channel and without peer connection, and the log is kept. */
  function Stop(st: State): (r: Option<State>)
    ensures r.None? <==> !st.hasPeer
    ensures r.Some? ==> !r.value.active && !r.value.hasChannel && !r.value.hasPeer
    ensures r.Some? ==> r.value.events == st.events && r.value.sent == st.sent
  {
    if !st.hasPeer then None
    else Some(st.(active := false, hasChannel := false, hasPeer := false))
  }

  /** A second `stopSession` after a successful one throws: the call is not idempotent. */
  lemma StopNotIdempotent(st: State)
    requires Stop(st).Some?
    ensures Stop(Stop(st).value).None?
  {
  }

  /** `setDataChannel(dc)` in `startSession`. */
  function AttachChannel(st: State): (r: State)
    ensures r.hasChannel && r == st.(hasChannel := true)
  {
    st.(hasChannel := true)
  }

  /** `peerConnection.current = pc` at the end of `startSession`. */
  function AttachPeer(st: State): (r: State)
    ensures r.hasPeer && r == st.(hasPeer := true)
  {
    st.(hasPeer := true)
  }

  /** One thing that can happen to the session, with the abstract inputs
      (fresh ids and clock readings) it consumes. */
  datatype Step =
    | SendEvent(m: Event, id: NonEmptyString, now: NonEmptyString)
    | SendTextStep(text: string, i1: NonEmptyString, t1: NonEmptyString, i2: NonEmptyString, t2: NonEmptyString)
    | Inbound(e: Event, arrival: NonEmptyString, id: NonEmptyString, now: NonEmptyString)
    | Open
    | StopStep
    | ChannelCreated
    | PeerCreated

  /** A step's effect; a `stopSession` that throws leaves the state as it was. */
  function Apply(st: State, step: Step): State {
    match step
    case SendEvent(m, id, now) => Dispatch(st, m, id, now)
    case SendTextStep(text, i1, t1, i2, t2) => SendText(st, text, i1, t1, i2, t2)
    case Inbound(e, arrival, id, now) => OnMessage(st, e, arrival, id, now)
    case Open => OnOpen(st)
    case StopStep => (match Stop(st) case None => st case Some(s) => s)
    case ChannelCreated => AttachChannel(st)
    case PeerCreated => AttachPeer(st)
  }

  /** Steps applied in order. */
  function Run(st: State, steps: seq<Step>): State
    decreases |steps|
  {
    if steps == [] then st else Run(Apply(st, steps[0]), steps[1..])
  }

  /** Every logged event carries a timestamp and every transmitted payload an
      event id. */
  ghost predicate WellStamped(st: State) {
    && (forall i :: 0 <= i < |st.events| ==> Present(st.events[i].timestamp))
    && (forall i :: 0 <= i < |st.sent| ==> Present(st.sent[i].eventId))
  }

  lemma DispatchWellStamped(st: State, m: Event, id: NonEmptyString, now: NonEmptyString)
    requires WellStamped(st)
    ensures WellStamped(Dispatch(st, m, id, now))
  {
    var r := Dispatch(st, m, id, now);
    if st.hasChannel {
      forall i | 0 <= i < |r.events| ensures Present(r.events[i].timestamp) {
        if i > 0 { assert r.events[i] == r.events[1..][i - 1]; }
      }
      forall i | 0 <= i < |r.sent| ensures Present(r.sent[i].eventId) {
        if i < |st.sent| { assert r.sent[i] == r.sent[..|st.sent|][i]; }
      }
    }
  }

  lemma InboundWellStamped(st: State, e: Event, arrival: NonEmptyString, id: NonEmptyString, now: NonEmptyString)
    requires WellStamped(st)
    ensures WellStamped(OnMessage(st, e, arrival, id, now))
  {
    var ev := BackfillTimestamp(e, arrival);
    var st1 := st.(events := [ev] + st.events);
    assert WellStamped(st1) by {
      forall i | 0 <= i < |st1.events| ensures Present(st1.events[i].timestamp) {
        if i > 0 { assert st1.events[i] == st.events[i - 1]; }
      }
    }
    if ev.kind == LogUpdate && |st1.events| >= 2 {
      DispatchWellStamped(st1, SystemPromptFor(st1.events).value, id, now);
    }
  }

  lemma ApplyWellStamped(st: State, step: Step)
    requires WellStamped(st)
    ensures WellStamped(Apply(st, step))
  {
    match step
    case SendEvent(m, id, now) =>
      DispatchWellStamped(st, m, id, now);
    case SendTextStep(text, i1, t1, i2, t2) =>
      var st1 := Dispatch(st, ConversationItem(UserRole, text), i1, t1);
      DispatchWellStamped(st, ConversationItem(UserRole, text), i1, t1);
      DispatchWellStamped(st1, ResponseCreateEvent(), i2, t2);
    case Inbound(e, arrival, id, now) =>
      InboundWellStamped(st, e, arrival, id, now);
    case Open =>
    case StopStep =>
    case ChannelCreated =>
    case PeerCreated =>
  }

  /** The timestamp and event-id invariant holds along every run. */
  lemma {:induction false} RunWellStamped(st: State, steps: seq<Step>)
    requires WellStamped(st)
    ensures WellStamped(Run(st, steps))
    decreases |steps|
  {
    if steps != [] {
      ApplyWellStamped(st, steps[0]);
      RunWellStamped(Apply(st, steps[0]), steps[1..]);
    }
  }

  /** `b`'s log is `a`'s with zero or more entries put in front. */
  ghost predicate LogExtends(a: State, b: State) {
    |a.events| <= |b.events| && b.events[|b.events| - |a.events|..] == a.events
  }

  /** `b`'s outgoing traffic is `a`'s with zero or more payloads after it. */
  ghost predicate SentExtends(a: State, b: State) {
    |a.sent| <= |b.sent| && b.sent[..|a.sent|] == a.sent
  }

  lemma ExtendsTransitive(a: State, b: State, c: State)
    ensures LogExtends(a, b) && LogExtends(b, c) ==> LogExtends(a, c)
    ensures SentExtends(a, b) && SentExtends(b, c) ==> SentExtends(a, c)
  {
    if LogExtends(a, b) && LogExtends(b, c) {
      var k := |c.events| - |b.events|;
      assert c.events[|c.events| - |a.events|..] == c.events[k..][|b.events| - |a.events|..];
    }
    if SentExtends(a, b) && SentExtends(b, c) {
      assert c.sent[..|a.sent|] == c.sent[..|b.sent|][..|a.sent|];
    }
  }

  lemma DispatchExtends(st: State, m: Event, id: NonEmptyString, now: NonEmptyString)
    ensures LogExtends(st, Dispatch(st, m, id, now)) && SentExtends(st, Dispatch(st, m, id, now))
  {
  }

  /** `updateSystemPrompt` only prepends to the log and only appends to the traffic. */
  lemma UpdateSystemPromptExtends(st: State, logs: seq<Event>, id: NonEmptyString, now: NonEmptyString)
    ensures LogExtends(st, UpdateSystemPrompt(st, logs, id, now))
    ensures SentExtends(st, UpdateSystemPrompt(st, logs, id, now))
  {
    match SystemPromptFor(logs)
    case None =>
    case Some(prompt) => DispatchExtends(st, prompt, id, now);
  }

  /** The `message` listener only prepends to the log and only appends to the traffic. */
  lemma InboundExtends(st: State, e: Event, arrival: NonEmptyString, id: NonEmptyString, now: NonEmptyString)
    ensures LogExtends(st, OnMessage(st, e, arrival, id, now))
    ensures SentExtends(st, OnMessage(st, e, arrival, id, now))
  {
    var ev := BackfillTimestamp(e, arrival);
    var st1 := st.(events := [ev] + st.events);
    assert LogExtends(st, st1) by { assert st1.events[1..] == st.events; }
    assert SentExtends(st, st1) by { assert st1.sent[..|st.sent|] == st.sent; }
    if ev.kind == LogUpdate {
      UpdateSystemPromptExtends(st1, st1.events, id, now);
      ExtendsTransitive(st, st1, UpdateSystemPrompt(st1, st1.events, id, now));
    }
  }

  /** Every step only appends to the traffic, and every step but `open` only
      prepends to the log. */
  lemma ApplyExtends(st: State, step: Step)
    ensures SentExtends(st, Apply(st, step))
    ensures !step.Open? ==> LogExtends(st, Apply(st, step))
  {
    match step
    case SendEvent(m, id, now) =>
      DispatchExtends(st, m, id, now);
    case SendTextStep(text, i1, t1, i2, t2) =>
      var st1 := Dispatch(st, ConversationItem(UserRole, text), i1, t1);
      DispatchExtends(st, ConversationItem(UserRole, text), i1, t1);
      DispatchExtends(st1, ResponseCreateEvent(), i2, t2);
      ExtendsTransitive(st, st1, Dispatch(st1, ResponseCreateEvent(), i2, t2));
    case Inbound(e, arrival, id, now) =>
      InboundExtends(st, e, arrival, id, now);
    case Open =>
      assert SentExtends(st, OnOpen(st)) by { assert st.sent[..|st.sent|] == st.sent; }
    case StopStep =>
      assert st.sent[..|st.sent|] == st.sent && st.events[|st.events| - |st.events|..] == st.events;
    case ChannelCreated =>
      assert st.sent[..|st.sent|] == st.sent && st.events[|st.events| - |st.events|..] == st.events;
    case PeerCreated =>
      assert st.sent[..|st.sent|] == st.sent && st.events[|st.events| - |st.events|..] == st.events;
  }

  /** Between two `open` events the log is prepend-only: the earlier log is a
      suffix of every later one. */
  lemma {:induction false} RunPrepends(st: State, steps: seq<Step>)
    requires forall i :: 0 <= i < |steps| ==> !steps[i].Open?
    ensures LogExtends(st, Run(st, steps))
    decreases |steps|
  {
    if steps == [] {
      assert st.events[|st.events| - |st.events|..] == st.events;
    } else {
      var mid := Apply(st, steps[0]);
      ApplyExtends(st, steps[0]);
      RunPrepends(mid, steps[1..]);
      ExtendsTransitive(st, mid, Run(mid, steps[1..]));
    }
  }

  /** Nothing once transmitted is ever taken back: the outgoing traffic only grows. */
  lemma {:induction false} RunSentGrows(st: State, steps: seq<Step>)
    ensures SentExtends(st, Run(st, steps))
    decreases |steps|
  {
    if steps == [] {
      assert st.sent[..|st.sent|] == st.sent;
    } else {
      var mid := Apply(st, steps[0]);
      ApplyExtends(st, steps[0]);
      RunSentGrows(mid, steps[1..]);
      ExtendsTransitive(st, mid, Run(mid, steps[1..]));
    }
  }

  /** Two captions arriving on a freshly opened channel: the first only lands in
      the log, the second triggers exactly one system prompt whose context lists
      the NEWER caption first. */
  lemma TwoCaptionRun(cat: Event, dog: Event, a1: NonEmptyString, i1: NonEmptyString, n1: NonEmptyString,
                      a2: NonEmptyString, i2: NonEmptyString, n2: NonEmptyString)
    requires cat.kind == LogUpdate && dog.kind == LogUpdate
    ensures var r := Run(Initial(), [ChannelCreated, Open, Inbound(cat, a1, i1, n1), Inbound(dog, a2, i2, n2)]);
      && |r.sent| == 1
      && r.sent[0].item == Some(Message(SystemRole,
           [InputText(PromptText(Clean(CaptionText(dog)) + Separator + Clean(CaptionText(cat))))]))
  {
    RunFour(Initial(), ChannelCreated, Open, Inbound(cat, a1, i1, n1), Inbound(dog, a2, i2, n2));
    var s2 := FirstCaptionState(cat, a1, i1, n1);
    assert Apply(s2, Inbound(dog, a2, i2, n2)) == OnMessage(s2, dog, a2, i2, n2);
    SecondCaption(s2, dog, a2, i2, n2);
    TwoEntryContext(dog, a2, cat, a1, s2.events);
  }

  /** After the channel is created and opened, a first caption only lands in the log. */
  lemma FirstCaptionState(cat: Event, a1: NonEmptyString, i1: NonEmptyString, n1: NonEmptyString)
    returns (s2: State)
    requires cat.kind == LogUpdate
    ensures s2 == Apply(Apply(Apply(Initial(), ChannelCreated), Open), Inbound(cat, a1, i1, n1))
    ensures s2.events == [BackfillTimestamp(cat, a1)] && s2.sent == [] && s2.hasChannel
  {
    var s1 := Apply(Apply(Initial(), ChannelCreated), Open);
    assert s1 == State(true, [], true, false, []);
    OnMessageFirstLog(s1, cat, a1, i1, n1);
    s2 := Apply(s1, Inbound(cat, a1, i1, n1));
  }

  /** A second caption on a log holding one entry, with nothing sent yet, sends
      exactly one payload: the system prompt for the log with the caption prepended. */
  lemma SecondCaption(s2: State, dog: Event, a2: NonEmptyString, i2: NonEmptyString, n2: NonEmptyString)
    requires dog.kind == LogUpdate
    requires |s2.events| == 1 && |s2.sent| == 0 && s2.hasChannel
    ensures var r := OnMessage(s2, dog, a2, i2, n2);
      && |r.sent| == 1
      && r.sent[0].item == Some(Message(SystemRole,
           [InputText(PromptText(Context([BackfillTimestamp(dog, a2)] + s2.events)))]))
  {
    OnMessageLogUpdate(s2, dog, a2, i2, n2);
  }

  /** The context of a log of two stamped captions: the newer one first. */
  lemma TwoEntryContext(dog: Event, a2: NonEmptyString, cat: Event, a1: NonEmptyString, log: seq<Event>)
    requires log == [BackfillTimestamp(cat, a1)]
    ensures Context([BackfillTimestamp(dog, a2)] + log) == Clean(CaptionText(dog)) + Separator + Clean(CaptionText(cat))
  {
    var dogEv, catEv := BackfillTimestamp(dog, a2), BackfillTimestamp(cat, a1);
    assert [dogEv] + log == [dogEv, catEv];
    ContextOfTwo(dogEv, catEv);
    assert CaptionText(dogEv) == CaptionText(dog) && CaptionText(catEv) == CaptionText(cat);
  }

  /** A run of four steps is the four steps applied in order. */
  lemma RunFour(st: State, a: Step, b: Step, c: Step, d: Step)
    ensures Run(st, [a, b, c, d]) == Apply(Apply(Apply(Apply(st, a), b), c), d)
  {
    var s1 := Apply(st, a);
    var s2 := Apply(s1, b);
    var s3 := Apply(s2, c);
    RunCons(st, a, [b, c, d]);
    RunCons(s1, b, [c, d]);
    RunCons(s2, c, [d]);
    RunCons(s3, d, []);
    assert [a] + [b, c, d] == [a, b, c, d];
    assert [b] + [c, d] == [b, c, d];
    assert [c] + [d] == [c, d];
    assert [d] + [] == [d];
  }

  /** Running a step then the rest is applying the step first. */
  lemma RunCons(st: State, s: Step, rest: seq<Step>)
    ensures Run(st, [s] + rest) == Run(Apply(st, s), rest)
  {
    assert ([s] + rest)[1..] == rest;
  }

  /** The two-caption run on captions with markup: the prompt's context is the
      newer caption, a blank line, then the older one, without asterisks. */
  lemma TwoCaptionScenario(cat: Event, dog: Event, a1: NonEmptyString, i1: NonEmptyString, n1: NonEmptyString,
                           a2: NonEmptyString, i2: NonEmptyString, n2: NonEmptyString)
    requires cat.kind == LogUpdate && cat.caption == Some("**A cat**")
    requires dog.kind == LogUpdate && dog.caption == Some("A dog on a *rug*")
    ensures var r := Run(Initial(), [ChannelCreated, Open, Inbound(cat, a1, i1, n1), Inbound(dog, a2, i2, n2)]);
      |r.sent| == 1 && r.sent[0].item == Some(Message(SystemRole, [InputText(PromptText("A dog on a rug\n\nA cat"))]))
  {
    TwoCaptionRun(cat, dog, a1, i1, n1, a2, i2, n2);
    ExampleContext(CaptionText(dog), CaptionText(cat));
  }
}
