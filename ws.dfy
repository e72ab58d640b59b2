/** The connection handler: the loop that reads frames, routes them by their
    `type`, drives the connection's session and writes the replies. */
module Ws {
  import opened SessionState
  import opened Messages
  import opened Sessions
  import opened Protocol

  /** The observable contents of a session object. */
  ghost function View(s: Session): SessionView
    reads s
  {
    SessionView(s.id, s.model, s.resumptionHandle, s.state, s.log)
  }

  /** The loop's locals `sess` and `sessionID` hold what `c` describes. */
  ghost predicate Mirrors(sess: Session?, sessionID: ID, c: Conn)
    reads sess
  {
    && sessionID == c.sessionID
    && (sess == null <==> c.session.None?)
    && (sess != null ==> View(sess) == c.session.value)
  }

  /** The registry after this connection's loop has run to locals `c`: the
      session is stored under its ID while registered, and removed once
      ended. */
  ghost function StoreAfter(before: map<ID, Session>, newId: ID, sess: Session?, c: Conn): map<ID, Session> {
    if c.session.None? || sess == null then before
    else if Registered(c) then before[newId := sess]
    else before - {newId}
  }

  /** One more iteration of the loop, seen from the whole run: if the run
      from `c` over `events[i..]` accounts for `total` after `written`, then
      so does the run from the next locals over `events[i + 1..]` after the
      frames this step writes; and when this step stops the loop, `total` is
      what has been written up to here. */
  lemma LoopStep(step: (Conn, Event) -> (Conn, seq<ServerMessage>), total: (Conn, seq<ServerMessage>),
                 written: seq<ServerMessage>, c: Conn, events: seq<Event>, i: nat)
    requires i < |events| && c.status == Open
    requires total == (Loop(step, c, events[i..]).0, written + Loop(step, c, events[i..]).1)
    ensures total.0 == Loop(step, step(c, events[i]).0, events[i + 1..]).0
    ensures total.1 == (written + step(c, events[i]).1) + Loop(step, step(c, events[i]).0, events[i + 1..]).1
    ensures step(c, events[i]).0.status != Open ==> total == (step(c, events[i]).0, written + step(c, events[i]).1)
  {
    assert events[i..][0] == events[i] && events[i..][1..] == events[i + 1..];
    var (next, out) := step(c, events[i]);
    var rest := Loop(step, next, events[i + 1..]).1;
    assert written + (out + rest) == (written + out) + rest;
    if next.status != Open {
      assert (written + out) + [] == written + out;
    }
  }

  /** The connection's socket: the frames written to it so far. A write
      that fails is still recorded here, since the handler goes on. */
  class Socket {
    var written: seq<ServerMessage>

    constructor ()
      ensures written == []
    {
      written := [];
    }
  }

  class Server {
    const store: Store

    /** A server with an empty registry. */
    constructor New()
      ensures fresh(store) && store.sessions == map[]
    {
      store := new Store.NewStore();
    }

    /** Writes one message to the connection. */
    method WriteJSON(conn: Socket, m: ServerMessage)
      modifies conn
      ensures conn.written == old(conn.written) + [m]
    {
      conn.written := conn.written + [m];
    }

    /** Writes one error message with `code` and `message`. */
    method SendError(conn: Socket, code: string, message: string)
      modifies conn
      ensures conn.written == old(conn.written) + [Error(code, message)]
    {
      WriteJSON(conn, Error(code, message));
    }

    /** Routes one frame by its `type` and runs its handler: the reply
        written, the new `sess` and `sessionID`, and whether the session
        ended, are those `Dispatch` gives for the locals `c` they mirror. */
    method HandleFrame(conn: Socket, f: Frame, newId: ID, clock: Clock,
                       sess0: Session?, sessionID0: ID, ghost c: Conn, ghost before: map<ID, Session>)
      returns (sess: Session?, sessionID: ID, ended: bool)
      requires c.status == Open && Inv(c)
      requires Mirrors(sess0, sessionID0, c)
      requires c.session.Some? ==> c.sessionID == newId
      requires sess0 != null ==> sess0.updatedAt <= clock.time
      requires store.sessions == StoreAfter(before, newId, sess0, c)
      modifies store, conn, clock, if sess0 == null then {} else {sess0}
      ensures old(clock.time) <= clock.time
      ensures conn.written == old(conn.written) + Dispatch(c, f, newId).1
      ensures Mirrors(sess, sessionID, Dispatch(c, f, newId).0)
      ensures sess != null ==> (sess == sess0 || fresh(sess)) && sess.updatedAt <= clock.time
      ensures store.sessions == StoreAfter(before, newId, sess, Dispatch(c, f, newId).0)
      ensures ended <==> Dispatch(c, f, newId).0.status == Ended
    {
      sess, sessionID, ended := sess0, sessionID0, false;
      if f.NonText? {
        SendError(conn, CodeBadJson, NotTextFrame);
        return;
      } else if f.BadEnvelope? {
        SendError(conn, CodeBadJson, InvalidJson);
        return;
      }
      var kind, payload := f.kind, f.payload;
      assert f == Typed(kind, payload);
      if kind == SetupType {
        sess, sessionID := HandleSetup(conn, payload, newId, clock, sess0, sessionID0, c, before);
      } else if kind == InputTextType {
        HandleInputText(conn, payload, newId, clock, sess0, sessionID0, c, before);
      } else if kind == InputAudioType {
        HandleInputAudio(conn, payload, newId, clock, sess0, sessionID0, c, before);
      } else if kind == ToolResultType {
        HandleToolResult(conn, payload, newId, clock, sess0, sessionID0, c, before);
      } else if kind == EndSessionType {
        ended := HandleEndSession(conn, payload, newId, clock, sess0, sessionID0, c, before);
      } else {
        SendError(conn, CodeUnknownType, UnknownTypePrefix + kind);
      }
    }

    /** The `setup` arm: refuse a second setup, otherwise create the session
        under `newId`, configure it, register it, log the request and send
        the resumption handle. */
    method HandleSetup(conn: Socket, payload: Option<ClientMessage>, newId: ID, clock: Clock,
                       sess0: Session?, sessionID0: ID, ghost c: Conn, ghost before: map<ID, Session>)
      returns (sess: Session?, sessionID: ID)
      requires c.status == Open && Inv(c)
      requires Mirrors(sess0, sessionID0, c)
      requires c.session.Some? ==> c.sessionID == newId
      requires sess0 != null ==> sess0.updatedAt <= clock.time
      requires store.sessions == StoreAfter(before, newId, sess0, c)
      modifies store, conn, clock, if sess0 == null then {} else {sess0}
      ensures old(clock.time) <= clock.time
      ensures conn.written == old(conn.written) + Dispatch(c, Typed(SetupType, payload), newId).1
      ensures Mirrors(sess, sessionID, Dispatch(c, Typed(SetupType, payload), newId).0)
      ensures sess != null ==> (sess == sess0 || fresh(sess)) && sess.updatedAt <= clock.time
      ensures store.sessions == StoreAfter(before, newId, sess, Dispatch(c, Typed(SetupType, payload), newId).0)
      ensures Dispatch(c, Typed(SetupType, payload), newId).0.status == Open
    {
      sess, sessionID := sess0, sessionID0;
      if sess != null {
        SendError(conn, CodeAlreadySetup, AlreadyConfigured);
      } else if payload.Some? && payload.value.SetupRequest? {
        var setupReq := payload.value;
        var s := new Session.NewSession(setupReq.model, newId, clock);
        s.state := Configured;
        s.resumptionHandle := HandlePrefix + s.id;
        sess := s;
        sessionID := s.id;
        store.Put(s);
        s.Append(setupReq, clock);
        WriteJSON(conn, SessionResumptionUpdate(s.resumptionHandle));
      } else {
        SendError(conn, CodeBadSetup, InvalidSetup);
      }
    }

    /** The `input_text` arm: the session becomes Active, logs the input and
        echoes it. */
    method HandleInputText(conn: Socket, payload: Option<ClientMessage>, newId: ID, clock: Clock,
                           sess0: Session?, sessionID0: ID, ghost c: Conn, ghost before: map<ID, Session>)
      requires c.status == Open && Inv(c)
      requires Mirrors(sess0, sessionID0, c)
      requires c.session.Some? ==> c.sessionID == newId
      requires sess0 != null ==> sess0.updatedAt <= clock.time
      requires store.sessions == StoreAfter(before, newId, sess0, c)
      modifies conn, clock, if sess0 == null then {} else {sess0}
      ensures old(clock.time) <= clock.time
      ensures conn.written == old(conn.written) + Dispatch(c, Typed(InputTextType, payload), newId).1
      ensures Mirrors(sess0, sessionID0, Dispatch(c, Typed(InputTextType, payload), newId).0)
      ensures sess0 != null ==> sess0.updatedAt <= clock.time
      ensures store.sessions == StoreAfter(before, newId, sess0, Dispatch(c, Typed(InputTextType, payload), newId).0)
      ensures Dispatch(c, Typed(InputTextType, payload), newId).0.status == Open
    {
      if sess0 == null {
        SendError(conn, CodeNoSession, NoActiveSession);
      } else if payload.Some? && payload.value.InputText? {
        var textInput := payload.value;
        sess0.state := Active;
        sess0.Append(textInput, clock);
        WriteJSON(conn, OutputText(EchoPrefix + textInput.text, true));
      } else {
        SendError(conn, CodeBadJson, InvalidTextInput);
      }
    }

    /** The `input_audio` arm: the session becomes Active, logs the chunk and
        acknowledges its format and final flag. */
    method HandleInputAudio(conn: Socket, payload: Option<ClientMessage>, newId: ID, clock: Clock,
                            sess0: Session?, sessionID0: ID, ghost c: Conn, ghost before: map<ID, Session>)
      requires c.status == Open && Inv(c)
      requires Mirrors(sess0, sessionID0, c)
      requires c.session.Some? ==> c.sessionID == newId
      requires sess0 != null ==> sess0.updatedAt <= clock.time
      requires store.sessions == StoreAfter(before, newId, sess0, c)
      modifies conn, clock, if sess0 == null then {} else {sess0}
      ensures old(clock.time) <= clock.time
      ensures conn.written == old(conn.written) + Dispatch(c, Typed(InputAudioType, payload), newId).1
      ensures Mirrors(sess0, sessionID0, Dispatch(c, Typed(InputAudioType, payload), newId).0)
      ensures sess0 != null ==> sess0.updatedAt <= clock.time
      ensures store.sessions == StoreAfter(before, newId, sess0, Dispatch(c, Typed(InputAudioType, payload), newId).0)
      ensures Dispatch(c, Typed(InputAudioType, payload), newId).0.status == Open
    {
      if sess0 == null {
        SendError(conn, CodeNoSession, NoActiveSession);
      } else if payload.Some? && payload.value.InputAudio? {
        var audioInput := payload.value;
        sess0.state := Active;
        sess0.Append(audioInput, clock);
        WriteJSON(conn, OutputText(AudioAckPrefix + audioInput.format
                                   + AudioAckFinal + FormatBool(audioInput.final) + ")", true));
      } else {
        SendError(conn, CodeBadJson, InvalidAudioInput);
      }
    }

    /** The `tool_result` arm: the result is logged; nothing is sent. */
    method HandleToolResult(conn: Socket, payload: Option<ClientMessage>, newId: ID, clock: Clock,
                            sess0: Session?, sessionID0: ID, ghost c: Conn, ghost before: map<ID, Session>)
      requires c.status == Open && Inv(c)
      requires Mirrors(sess0, sessionID0, c)
      requires c.session.Some? ==> c.sessionID == newId
      requires sess0 != null ==> sess0.updatedAt <= clock.time
      requires store.sessions == StoreAfter(before, newId, sess0, c)
      modifies conn, clock, if sess0 == null then {} else {sess0}
      ensures old(clock.time) <= clock.time
      ensures conn.written == old(conn.written) + Dispatch(c, Typed(ToolResultType, payload), newId).1
      ensures Mirrors(sess0, sessionID0, Dispatch(c, Typed(ToolResultType, payload), newId).0)
      ensures sess0 != null ==> sess0.updatedAt <= clock.time
      ensures store.sessions == StoreAfter(before, newId, sess0, Dispatch(c, Typed(ToolResultType, payload), newId).0)
      ensures Dispatch(c, Typed(ToolResultType, payload), newId).0.status == Open
    {
      if sess0 == null {
        SendError(conn, CodeNoSession, NoActiveSession);
      } else if payload.Some? && payload.value.ToolResult? {
        sess0.Append(payload.value, clock);
      } else {
        SendError(conn, CodeBadJson, InvalidToolResult);
      }
    }

    /** The `end_session` arm: the session goes through Closing, logs the
        request, says goodbye, becomes Closed and leaves the registry; the
        loop then ends. */
    method HandleEndSession(conn: Socket, payload: Option<ClientMessage>, newId: ID, clock: Clock,
                            sess0: Session?, sessionID0: ID, ghost c: Conn, ghost before: map<ID, Session>)
      returns (ended: bool)
      requires c.status == Open && Inv(c)
      requires Mirrors(sess0, sessionID0, c)
      requires c.session.Some? ==> c.sessionID == newId
      requires sess0 != null ==> sess0.updatedAt <= clock.time
      requires store.sessions == StoreAfter(before, newId, sess0, c)
      modifies store, conn, clock, if sess0 == null then {} else {sess0}
      ensures old(clock.time) <= clock.time
      ensures conn.written == old(conn.written) + Dispatch(c, Typed(EndSessionType, payload), newId).1
      ensures Mirrors(sess0, sessionID0, Dispatch(c, Typed(EndSessionType, payload), newId).0)
      ensures sess0 != null ==> sess0.updatedAt <= clock.time
      ensures store.sessions == StoreAfter(before, newId, sess0, Dispatch(c, Typed(EndSessionType, payload), newId).0)
      ensures ended <==> Dispatch(c, Typed(EndSessionType, payload), newId).0.status == Ended
    {
      ended := false;
      if sess0 == null {
        SendError(conn, CodeNoSession, NoActiveSession);
      } else if payload.Some? && payload.value.SessionEnd? {
        var endSession := payload.value;
        sess0.state := Closing;
        sess0.Append(endSession, clock);
        WriteJSON(conn, OutputText(Goodbye, true));
        sess0.state := Closed;
        store.Delete(sessionID0);
        ended := true;
      } else {
        SendError(conn, CodeBadJson, InvalidSessionEnd);
      }
    }

    /** One turn of the loop: stop if the connection's context is cancelled
        or the read fails, otherwise handle the frame read. The frames written,
        the new `sess` and `sessionID`, and whether the loop stops are those
        the iteration `step` gives for the locals `c` they mirror. */
    method Turn(conn: Socket, e: Event, newId: ID, clock: Clock, sess0: Session?, sessionID0: ID,
                ghost step: (Conn, Event) -> (Conn, seq<ServerMessage>), ghost c: Conn, ghost before: map<ID, Session>)
      returns (sess: Session?, sessionID: ID, stop: bool)
      requires Implements(step, newId)
      requires c.status == Open && Inv(c)
      requires Mirrors(sess0, sessionID0, c)
      requires c.session.Some? ==> c.sessionID == newId
      requires sess0 != null ==> sess0.updatedAt <= clock.time
      requires store.sessions == StoreAfter(before, newId, sess0, c)
      modifies store, conn, clock, if sess0 == null then {} else {sess0}
      ensures old(clock.time) <= clock.time
      ensures conn.written == old(conn.written) + step(c, e).1
      ensures Mirrors(sess, sessionID, step(c, e).0)
      ensures sess != null ==> (sess == sess0 || fresh(sess)) && sess.updatedAt <= clock.time
      ensures store.sessions == StoreAfter(before, newId, sess, step(c, e).0)
      ensures stop <==> step(c, e).0.status != Open
      ensures Inv(step(c, e).0)
      ensures step(c, e).0.session.Some? ==> step(c, e).0.sessionID == newId
    {
      assert step(c, e) == Step(c, e, newId);
      if !e.Received? {
        return sess0, sessionID0, true;
      }
      sess, sessionID, stop := HandleFrame(conn, e.frame, newId, clock, sess0, sessionID0, c, before);
    }

    /** Serves one connection until its context is cancelled, a read fails,
        or its session ends. `events` is what the connection delivers, in
        order; `newId` is the identifier a session created here gets.
        Returns the final `sess` and `sessionID`, and, as a ghost, the locals
        the protocol specification predicts. */
    method HandleSpeakWS(conn: Socket, events: seq<Event>, newId: ID, clock: Clock)
      returns (sess: Session?, sessionID: ID, ghost final: Conn)
      modifies store, conn, clock
      ensures old(clock.time) <= clock.time
      ensures final == Run(Initial, events, newId).0
      ensures conn.written == old(conn.written) + Run(Initial, events, newId).1
      ensures Mirrors(sess, sessionID, final)
      ensures sess != null ==> fresh(sess) && sess.updatedAt <= clock.time
      ensures store.sessions == StoreAfter(old(store.sessions), newId, sess, final)
      ensures newId !in old(store.sessions) && final.status == Ended ==> store.sessions == old(store.sessions)
    {
      StepImplemented(newId);
      ghost var step: (Conn, Event) -> (Conn, seq<ServerMessage>) :| Implements(step, newId);
      sess, sessionID, final := ServeLoop(conn, events, newId, clock, step);
      LoopImplements(step, Initial, events, newId);
    }

    /** The handler's read-and-dispatch loop, proved for any function `step`
        that agrees with the iteration `Step`. Stating it against `Run`
        directly would unfold `Dispatch` inside the loop's proof, which is
        far costlier; `HandleSpeakWS` ties `step` back to `Run`. */
    method ServeLoop(conn: Socket, events: seq<Event>, newId: ID, clock: Clock,
                     ghost step: (Conn, Event) -> (Conn, seq<ServerMessage>))
      returns (sess: Session?, sessionID: ID, ghost final: Conn)
      requires Implements(step, newId)
      modifies store, conn, clock
      ensures old(clock.time) <= clock.time
      ensures final == Loop(step, Initial, events).0
      ensures conn.written == old(conn.written) + Loop(step, Initial, events).1
      ensures Mirrors(sess, sessionID, final)
      ensures sess != null ==> fresh(sess) && sess.updatedAt <= clock.time
      ensures store.sessions == StoreAfter(old(store.sessions), newId, sess, final)
    {
      sess, sessionID := null, "";
      ghost var c := Initial;
      ghost var written := [];
      var i := 0;
      ghost var total := Loop(step, Initial, events);
      assert events[i..] == events && written + total.1 == total.1;
      while i < |events|
        invariant 0 <= i <= |events|
        invariant old(clock.time) <= clock.time
        invariant c.status == Open && Inv(c)
        invariant conn.written == old(conn.written) + written
        invariant total == (Loop(step, c, events[i..]).0, written + Loop(step, c, events[i..]).1)
        invariant Mirrors(sess, sessionID, c)
        invariant c.session.Some? ==> c.sessionID == newId
        invariant sess != null ==> fresh(sess) && sess.updatedAt <= clock.time
        invariant store.sessions == StoreAfter(old(store.sessions), newId, sess, c)
      {
        LoopStep(step, total, written, c, events, i);
        ghost var next := step(c, events[i]).0;
        ghost var out := step(c, events[i]).1;
        var stop;
        sess, sessionID, stop := Turn(conn, events[i], newId, clock, sess, sessionID, step, c, old(store.sessions));
        if stop {
          final := next;
          return;
        }
        written := written + out;
        c := next;
        i := i + 1;
      }
      final := c;
      assert events[i..] == [];
    }
  }
}
