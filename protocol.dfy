/** The per-connection session protocol as a function of the frames read:
    which reply each frame gets, and how the connection's session changes. */
module Protocol {
  import opened SessionState
  import opened Messages
  import Sessions

  type ID = Sessions.ID

  /** The observable contents of a session (timestamps aside). */
  datatype SessionView = SessionView(id: ID, model: string, handle: string, state: State, log: seq<ClientMessage>)

  /** Why the dispatch loop stopped, or Open while it is still reading. */
  datatype Status = Open | Cancelled | ReadFailed | Ended

  /** The dispatch loop's locals: the session (if set up) and its ID. */
  datatype Conn = Conn(session: Option<SessionView>, sessionID: ID, status: Status)

  /** What the loop observes before each frame: cancellation of the
      connection's context, a failed read, or a frame. */
  datatype Event = Cancel | ReadError | Received(frame: Frame)

  const Initial := Conn(None, "", Open)

  const NoSession := Error(CodeNoSession, NoActiveSession)

  /** The message types the dispatcher routes; any other is unknown. */
  const Kinds: set<string> := {SetupType, InputTextType, InputAudioType, ToolResultType, EndSessionType}

  /** The message is one the connection in `c` processes: it decodes, and a
      session exists exactly when the message is not a setup. */
  predicate Accepted(c: Conn, f: Frame) {
    Decodes(f) && (c.session.None? <==> f.kind == SetupType)
  }

  /** The session's log, empty before setup. */
  function LogOf(c: Conn): seq<ClientMessage> {
    if c.session.Some? then c.session.value.log else []
  }

  /** The session is in the registry: it was set up and not ended. */
  predicate Registered(c: Conn) {
    c.session.Some? && c.status != Ended
  }

  /** The state-transition table: the state after a processed message of
      type `kind` in state `from`. */
  function Transition(kind: string, from: State): State {
    if kind == SetupType then Configured
    else if kind == InputTextType || kind == InputAudioType then Active
    else if kind == EndSessionType then Closed
    else from
  }

  /** What holds between frames: the session is registered under its own ID,
      its handle derives from it, its log starts with the one setup request,
      it is Configured, Active or Closed, and Closed exactly when ended. */
  ghost predicate Inv(c: Conn) {
    match c.session
    case None => c.status != Ended
    case Some(s) =>
      && s.id == c.sessionID
      && s.handle == HandlePrefix + s.id
      && (s.state == Configured || s.state == Active || s.state == Closed)
      && (s.state == Closed <==> c.status == Ended)
      && |s.log| >= 1 && s.log[0] == SetupRequest(s.model)
      && (forall k :: 1 <= k < |s.log| ==> !s.log[k].SetupRequest?)
  }

  /** `d` is `c` or a later point of the same connection: once set up, the
      session keeps its identity, its state only moves forward along the
      lifecycle and its log only grows; once stopped, nothing changes. */
  ghost predicate Advances(c: Conn, d: Conn) {
    && (c.session.Some? ==>
          && d.session.Some?
          && d.sessionID == c.sessionID
          && d.session.value.id == c.session.value.id
          && d.session.value.model == c.session.value.model
          && d.session.value.handle == c.session.value.handle
          && c.session.value.state <= d.session.value.state
          && c.session.value.log <= d.session.value.log)
    && (c.status != Open ==> d == c)
  }

  /** `s` after the processed message `m`, in state `state`. */
  function Record(s: SessionView, state: State, m: ClientMessage): SessionView {
    s.(state := state, log := s.log + [m])
  }

  /** One pass of the dispatch loop over a frame: the new locals and the
      frames written back (none or one). `newId` is the identifier the
      generator would give a session created now. */
  function Dispatch(c: Conn, f: Frame, newId: ID): (r: (Conn, seq<ServerMessage>))
    ensures |r.1| <= 1
    ensures !Accepted(c, f) ==> r.0 == c && |r.1| == 1 && r.1[0].Error?
    ensures Accepted(c, f) ==> (r.1 == [] <==> f.kind == ToolResultType) && forall m :: m in r.1 ==> !m.Error?
    ensures r.0.status == if Accepted(c, f) && f.kind == EndSessionType then Ended else c.status
    ensures c.session.None? && r.0.session.Some? ==> r.0.sessionID == newId
  {
    match f
    case NonText => (c, [Error(CodeBadJson, NotTextFrame)])
    case BadEnvelope => (c, [Error(CodeBadJson, InvalidJson)])
    case Typed(kind, payload) =>
      if kind == SetupType then
        if c.session.Some? then (c, [Error(CodeAlreadySetup, AlreadyConfigured)])
        else if payload.Some? && payload.value.SetupRequest? then
          var s := SessionView(newId, payload.value.model, HandlePrefix + newId, Configured, [payload.value]);
          (c.(session := Some(s), sessionID := newId), [SessionResumptionUpdate(s.handle)])
        else (c, [Error(CodeBadSetup, InvalidSetup)])
      else if kind == InputTextType then
        if c.session.None? then (c, [NoSession])
        else if payload.Some? && payload.value.InputText? then
          (c.(session := Some(Record(c.session.value, Active, payload.value))),
           [OutputText(EchoPrefix + payload.value.text, true)])
        else (c, [Error(CodeBadJson, InvalidTextInput)])
      else if kind == InputAudioType then
        if c.session.None? then (c, [NoSession])
        else if payload.Some? && payload.value.InputAudio? then
          var a := payload.value;
          (c.(session := Some(Record(c.session.value, Active, a))),
           [OutputText(AudioAckPrefix + a.format + AudioAckFinal + FormatBool(a.final) + ")", true)])
        else (c, [Error(CodeBadJson, InvalidAudioInput)])
      else if kind == ToolResultType then
        if c.session.None? then (c, [NoSession])
        else if payload.Some? && payload.value.ToolResult? then
          (c.(session := Some(Record(c.session.value, c.session.value.state, payload.value))), [])
        else (c, [Error(CodeBadJson, InvalidToolResult)])
      else if kind == EndSessionType then
        if c.session.None? then (c, [NoSession])
        else if payload.Some? && payload.value.SessionEnd? then
          (Conn(Some(Record(c.session.value, Closed, payload.value)), c.sessionID, Ended),
           [OutputText(Goodbye, true)])
        else (c, [Error(CodeBadJson, InvalidSessionEnd)])
      else (c, [Error(CodeUnknownType, UnknownTypePrefix + kind)])
  }

  /** A processed message is appended to the session's log, and the
      session's state follows the transition table. */
  lemma DispatchRecords(c: Conn, f: Frame, newId: ID)
    requires Accepted(c, f)
    ensures LogOf(Dispatch(c, f, newId).0) == LogOf(c) + [f.payload.value]
    ensures var r := Dispatch(c, f, newId);
      r.0.session.Some? && r.0.session.value.state == Transition(f.kind, if c.session.Some? then c.session.value.state else Connecting)
  {
  }

  /** Dispatching a frame on an open connection keeps the invariant, and
      the new locals advance on the old. The hypotheses sit in the ensures,
      not in a requires, because `Step`, a compiled function, calls this
      lemma on every frame and cannot test the ghost `Inv` to guard the
      call. */
  lemma DispatchKeepsInv(c: Conn, f: Frame, newId: ID)
    ensures c.status == Open && Inv(c) ==> Advances(c, Dispatch(c, f, newId).0) && Inv(Dispatch(c, f, newId).0)
  {
  }

  /** One iteration of the loop: the cancellation check, the read, and the
      dispatch of the frame read. */
  function Step(c: Conn, e: Event, newId: ID): (r: (Conn, seq<ServerMessage>))
    ensures |r.1| <= 1
    ensures e.Received? ==> r == Dispatch(c, e.frame, newId)
    ensures !e.Received? ==> r.1 == [] && r.0.session == c.session && r.0.status != Open
    ensures c.status == Open && Inv(c) ==> Advances(c, r.0) && Inv(r.0)
  {
    match e
    case Cancel => (c.(status := Cancelled), [])
    case ReadError => (c.(status := ReadFailed), [])
    case Received(f) => DispatchKeepsInv(c, f, newId); Dispatch(c, f, newId)
  }

  /** The loop's skeleton, for any iteration `step`: from locals `c`, take
      the events in order until the connection stops. Returns the final
      locals and every frame written, in order. */
  function Loop(step: (Conn, Event) -> (Conn, seq<ServerMessage>), c: Conn, events: seq<Event>): (Conn, seq<ServerMessage>)
    decreases |events|
  {
    if events == [] || c.status != Open then (c, [])
    else
      var (c1, out1) := step(c, events[0]);
      var (c2, out2) := Loop(step, c1, events[1..]);
      (c2, out1 + out2)
  }

  /** The iteration of the handler whose new sessions get `newId`. */
  function StepFn(newId: ID): (Conn, Event) -> (Conn, seq<ServerMessage>) {
    (c, e) => Step(c, e, newId)
  }

  /** The handler's loop over a sequence of events, from locals `c`: it stops
      at cancellation, at a failed read and after an ended session. */
  function Run(c: Conn, events: seq<Event>, newId: ID): (Conn, seq<ServerMessage>) {
    Loop(StepFn(newId), c, events)
  }

  /** Running over `a + b` is running over `a`, then over `b` from where
      `a` left off; the frames written are concatenated in order. */
  lemma {:induction false} LoopConcat(step: (Conn, Event) -> (Conn, seq<ServerMessage>), c: Conn, a: seq<Event>, b: seq<Event>)
    ensures Loop(step, c, a + b) == (Loop(step, Loop(step, c, a).0, b).0, Loop(step, c, a).1 + Loop(step, Loop(step, c, a).0, b).1)
    decreases |a|
  {
    if a == [] {
      assert a + b == b;
      assert [] + Loop(step, c, b).1 == Loop(step, c, b).1;
    } else if c.status == Open {
      assert (a + b)[0] == a[0];
      assert (a + b)[1..] == a[1..] + b;
      var (c1, out1) := step(c, a[0]);
      LoopConcat(step, c1, a[1..], b);
      var (c2, out2) := Loop(step, c1, a[1..]);
      var out3 := Loop(step, c2, b).1;
      assert out1 + (out2 + out3) == (out1 + out2) + out3;
    } else {
      assert [] + Loop(step, c, b).1 == [];
    }
  }

  /** From a connection where the invariant holds, every later point of the
      run advances on it and keeps the invariant. */
  lemma {:induction false} RunAdvances(c: Conn, events: seq<Event>, newId: ID)
    requires Inv(c)
    ensures Advances(c, Run(c, events, newId).0) && Inv(Run(c, events, newId).0)
    decreases |events|
  {
    if events != [] && c.status == Open {
      var c1 := Step(c, events[0], newId).0;
      RunAdvances(c1, events[1..], newId);
    }
  }

  /** `step` agrees with the iteration of the handler whose new sessions get
      `newId`. */
  ghost predicate Implements(step: (Conn, Event) -> (Conn, seq<ServerMessage>), newId: ID) {
    forall c, e {:trigger Step(c, e, newId)} :: step(c, e) == Step(c, e, newId)
  }

  /** Some iteration function implements the handler's. */
  lemma StepImplemented(newId: ID)
    ensures exists step :: Implements(step, newId)
  {
    assert Implements(StepFn(newId), newId);
  }

  /** The loop skeleton over any implementation of the iteration is the
      handler's loop. */
  lemma {:induction false} LoopImplements(step: (Conn, Event) -> (Conn, seq<ServerMessage>), c: Conn, events: seq<Event>, newId: ID)
    requires Implements(step, newId)
    ensures Loop(step, c, events) == Run(c, events, newId)
    decreases |events|
  {
    if events != [] && c.status == Open {
      assert step(c, events[0]) == Step(c, events[0], newId);
      LoopImplements(step, step(c, events[0]).0, events[1..], newId);
    }
  }

  /** One turn of the handler's loop over a non-empty sequence on an open
      connection. */
  lemma RunUnfold(c: Conn, events: seq<Event>, newId: ID)
    requires events != [] && c.status == Open
    ensures var (c1, out1) := Step(c, events[0], newId);
      Run(c, events, newId) == (Run(c1, events[1..], newId).0, out1 + Run(c1, events[1..], newId).1)
  {
  }

  /** Each event writes at most one frame. */
  lemma {:induction false} RunWritesAtMostOnce(c: Conn, events: seq<Event>, newId: ID)
    ensures |Run(c, events, newId).1| <= |events|
    decreases |events|
  {
    if events != [] && c.status == Open {
      var c1 := Step(c, events[0], newId).0;
      RunWritesAtMostOnce(c1, events[1..], newId);
    }
  }

  /** Over any event sequence, a later point of the connection advances on
      an earlier one: the state never regresses, the log and the session's
      identity are kept, and the frames already written stay written. */
  lemma PrefixesAdvance(c: Conn, events: seq<Event>, i: nat, j: nat, newId: ID)
    requires Inv(c)
    requires i <= j <= |events|
    ensures Advances(Run(c, events[..i], newId).0, Run(c, events[..j], newId).0)
    ensures Run(c, events[..i], newId).1 <= Run(c, events[..j], newId).1
  {
    assert events[..j] == events[..i] + events[i..j];
    LoopConcat(StepFn(newId), c, events[..i], events[i..j]);
    RunAdvances(c, events[..i], newId);
    RunAdvances(Run(c, events[..i], newId).0, events[i..j], newId);
  }

  /** Once the session has ended, later events are never read: nothing more
      is written and the locals stay as they are. */
  lemma NothingAfterEnd(c: Conn, a: seq<Event>, b: seq<Event>, newId: ID)
    requires Run(c, a, newId).0.status == Ended
    ensures Run(c, a + b, newId) == Run(c, a, newId)
  {
    LoopConcat(StepFn(newId), c, a, b);
    var (c1, out1) := Run(c, a, newId);
    assert Run(c1, b, newId) == (c1, []);
    assert out1 + [] == out1;
  }

  /** From a fresh connection, an ended session is Closed, no longer
      registered, and its log starts with its setup request. */
  lemma EndedSessionIsClosed(events: seq<Event>, newId: ID)
    requires Run(Initial, events, newId).0.status == Ended
    ensures var c := Run(Initial, events, newId).0;
      c.session.Some? && c.session.value.state == Closed && !Registered(c)
      && |c.session.value.log| >= 1 && c.session.value.log[0] == SetupRequest(c.session.value.model)
  {
    RunAdvances(Initial, events, newId);
  }

  /** A frame that is not text, or whose envelope does not decode, gets one
      bad_json error and changes nothing. */
  lemma UndecodableFrames(c: Conn, newId: ID)
    ensures Dispatch(c, NonText, newId) == (c, [Error(CodeBadJson, NotTextFrame)])
    ensures Dispatch(c, BadEnvelope, newId) == (c, [Error(CodeBadJson, InvalidJson)])
  {
  }

  /** A second setup gets already_setup whatever its payload, since the
      check precedes decoding; the existing session is untouched. */
  lemma SetupTwice(c: Conn, payload: Option<ClientMessage>, newId: ID)
    requires c.session.Some?
    ensures Dispatch(c, Typed(SetupType, payload), newId) == (c, [Error(CodeAlreadySetup, AlreadyConfigured)])
  {
  }

  /** A well-formed setup without a session creates a Configured session
      under the new ID, whose handle is HandlePrefix + ID and whose log is the
      setup request alone, and replies with that handle. */
  lemma SetupCreatesSession(c: Conn, model: string, newId: ID)
    requires c.session.None? && c.status == Open
    ensures var r := Dispatch(c, Typed(SetupType, Some(SetupRequest(model))), newId);
      && r.0 == Conn(Some(SessionView(newId, model, HandlePrefix + newId, Configured, [SetupRequest(model)])), newId, Open)
      && r.1 == [SessionResumptionUpdate(HandlePrefix + newId)]
      && Registered(r.0)
  {
  }

  /** Every other message type needs a session: without one it gets
      no_session and nothing changes. */
  lemma SessionRequired(c: Conn, kind: string, payload: Option<ClientMessage>, newId: ID)
    requires c.session.None?
    requires kind in Kinds - {SetupType}
    ensures Dispatch(c, Typed(kind, payload), newId) == (c, [NoSession])
  {
  }

  /** A payload that does not decode as its declared type gets bad_setup
      for setup and bad_json otherwise, and nothing changes. */
  lemma MalformedPayload(c: Conn, kind: string, payload: Option<ClientMessage>, newId: ID)
    requires kind in Kinds && (c.session.None? <==> kind == SetupType)
    requires !Decodes(Typed(kind, payload))
    ensures var r := Dispatch(c, Typed(kind, payload), newId);
      r.0 == c && |r.1| == 1 && r.1[0].Error? && r.1[0].code == if kind == SetupType then CodeBadSetup else CodeBadJson
  {
  }

  /** A type outside the five known ones gets unknown_type naming it,
      whether or not a session exists. */
  lemma UnknownType(c: Conn, kind: string, payload: Option<ClientMessage>, newId: ID)
    requires kind !in Kinds
    ensures Dispatch(c, Typed(kind, payload), newId) == (c, [Error(CodeUnknownType, UnknownTypePrefix + kind)])
  {
  }

  /** Text input makes the session Active, is logged, and is echoed back. */
  lemma TextEchoed(c: Conn, text: string, newId: ID)
    requires c.session.Some?
    ensures var r := Dispatch(c, Typed(InputTextType, Some(InputText(text))), newId);
      && r.0 == c.(session := Some(c.session.value.(state := Active, log := c.session.value.log + [InputText(text)])))
      && r.1 == [OutputText(EchoPrefix + text, true)]
  {
  }

  /** Audio input makes the session Active, is logged, and is acknowledged
      with its format and final flag. */
  lemma AudioAcknowledged(c: Conn, format: string, chunk: string, final: bool, newId: ID)
    requires c.session.Some?
    ensures var m := InputAudio(format, chunk, final);
      var r := Dispatch(c, Typed(InputAudioType, Some(m)), newId);
      && r.0 == c.(session := Some(c.session.value.(state := Active, log := c.session.value.log + [m])))
      && r.1 == [OutputText(AudioAckPrefix + format + AudioAckFinal + FormatBool(final) + ")", true)]
  {
  }

  /** A tool result is logged only: no reply, no state change. */
  lemma ToolResultLogged(c: Conn, name: string, callId: string, result: string, newId: ID)
    requires c.session.Some?
    ensures var m := ToolResult(name, callId, result);
      var r := Dispatch(c, Typed(ToolResultType, Some(m)), newId);
      && r.0 == c.(session := Some(c.session.value.(log := c.session.value.log + [m])))
      && r.1 == []
  {
  }

  /** Ending the session logs the request, says goodbye, leaves the session
      Closed and unregistered, and stops the loop. */
  lemma EndSessionCloses(c: Conn, reason: string, newId: ID)
    requires c.session.Some?
    ensures var r := Dispatch(c, Typed(EndSessionType, Some(SessionEnd(reason))), newId);
      && r.0.session == Some(c.session.value.(state := Closed, log := c.session.value.log + [SessionEnd(reason)]))
      && r.0.status == Ended && !Registered(r.0)
      && r.1 == [OutputText(Goodbye, true)]
  {
  }

  /** Before any setup frame, no session exists and every frame written is
      an error. */
  lemma {:induction false} NoSessionWithoutSetup(c: Conn, events: seq<Event>, newId: ID)
    requires c.session.None?
    requires forall k :: 0 <= k < |events| ==> !(events[k].Received? && events[k].frame.Typed? && events[k].frame.kind == SetupType)
    ensures Run(c, events, newId).0.session.None?
    ensures forall m :: m in Run(c, events, newId).1 ==> m.Error?
    decreases |events|
  {
    if events != [] && c.status == Open {
      RunUnfold(c, events, newId);
      var c1 := Step(c, events[0], newId).0;
      NoSessionWithoutSetup(c1, events[1..], newId);
    }
  }

  /** A whole conversation: setup, one text input, end. */
  lemma Conversation(model: string, text: string, reason: string, newId: ID)
    ensures var events := [Received(Typed(SetupType, Some(SetupRequest(model)))),
                           Received(Typed(InputTextType, Some(InputText(text)))),
                           Received(Typed(EndSessionType, Some(SessionEnd(reason))))];
      Run(Initial, events, newId) ==
        (Conn(Some(SessionView(newId, model, HandlePrefix + newId, Closed,
                               [SetupRequest(model), InputText(text), SessionEnd(reason)])), newId, Ended),
         [SessionResumptionUpdate(HandlePrefix + newId),
          OutputText(EchoPrefix + text, true),
          OutputText(Goodbye, true)])
  {
    var events := [Received(Typed(SetupType, Some(SetupRequest(model)))),
                   Received(Typed(InputTextType, Some(InputText(text)))),
                   Received(Typed(EndSessionType, Some(SessionEnd(reason))))];
    var c1 := Conn(Some(SessionView(newId, model, HandlePrefix + newId, Configured, [SetupRequest(model)])), newId, Open);
    SetupCreatesSession(Initial, model, newId);
    RunUnfold(Initial, events, newId);
    var c2 := c1.(session := Some(c1.session.value.(state := Active, log := [SetupRequest(model), InputText(text)])));
    TextEchoed(c1, text, newId);
    assert [SetupRequest(model)] + [InputText(text)] == [SetupRequest(model), InputText(text)];
    RunUnfold(c1, events[1..], newId);
    assert events[1..][0] == events[1] && events[1..][1..] == events[2..];
    assert events[2..][0] == events[2];
    EndSessionCloses(c2, reason, newId);
    RunUnfold(c2, events[2..], newId);
    var c3 := Conn(Some(c2.session.value.(state := Closed, log := c2.session.value.log + [SessionEnd(reason)])), newId, Ended);
    assert c2.session.value.log + [SessionEnd(reason)] == [SetupRequest(model), InputText(text), SessionEnd(reason)];
    assert events[2..][1..] == [];
    assert Run(c3, [], newId) == (c3, []);
    assert c2.status == Open;
    assert Dispatch(c2, Typed(EndSessionType, Some(SessionEnd(reason))), newId) == (c3, [OutputText(Goodbye, true)]);
    assert Step(c2, events[2], newId) == (c3, [OutputText(Goodbye, true)]);
    assert Run(c3, events[2..][1..], newId) == (c3, []);
    assert [OutputText(Goodbye, true)] + [] == [OutputText(Goodbye, true)];
    assert Run(c2, events[2..], newId) == (c3, [OutputText(Goodbye, true)]);
    assert Step(c1, events[1], newId) == (c2, [OutputText(EchoPrefix + text, true)]);
    assert [OutputText(EchoPrefix + text, true)] + [OutputText(Goodbye, true)]
        == [OutputText(EchoPrefix + text, true), OutputText(Goodbye, true)];
    assert Run(c1, events[1..], newId) == (c3, [OutputText(EchoPrefix + text, true), OutputText(Goodbye, true)]);
    assert Step(Initial, events[0], newId) == (c1, [SessionResumptionUpdate(HandlePrefix + newId)]);
    assert [SessionResumptionUpdate(HandlePrefix + newId)]
        + [OutputText(EchoPrefix + text, true), OutputText(Goodbye, true)]
        == [SessionResumptionUpdate(HandlePrefix + newId), OutputText(EchoPrefix + text, true), OutputText(Goodbye, true)];
    assert Run(Initial, events, newId).0 == c3;
  }
}
