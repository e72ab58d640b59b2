/** Sessions and the registry that maps session IDs to them. */
module Sessions {
  import opened SessionState
  import opened Messages

  /** An opaque session identifier. */
  type ID = string

  /** The wall clock. Readings never go backwards; how far they advance is
      not promised. */
  class Clock {
    var time: nat

    constructor (start: nat)
      ensures time == start
    {
      time := start;
    }

    method Now() returns (t: nat)
      modifies this
      ensures old(time) <= t && time == t
    {
      time := time + 1;
      t := time;
    }
  }

  /** One conversation: identity, lifecycle state, and an append-only log. */
  class Session {
    var createdAt: nat
    var updatedAt: nat
    var id: ID
    var model: string
    var resumptionHandle: string
    var log: seq<ClientMessage>
    var state: State

    /** A new session for `model`. Its identifier `id` comes from the
        identifier generator; both timestamps are one reading of `clock`. */
    constructor NewSession(model: string, id: ID, clock: Clock)
      modifies clock
      ensures this.id == id && this.model == model
      ensures state == Connecting && log == [] && resumptionHandle == ""
      ensures createdAt == updatedAt == clock.time && old(clock.time) <= clock.time
    {
      var now := clock.Now();
      this.id := id;
      this.model := model;
      state := Connecting;
      createdAt := now;
      updatedAt := now;
      log := [];
      resumptionHandle := "";
    }

    /** Appends `message` to the log and stamps the update time. The session's
        timestamps come from `clock`, so it cannot be behind them. */
    method Append(message: ClientMessage, clock: Clock)
      requires updatedAt <= clock.time
      modifies this, clock
      ensures log == old(log) + [message]
      ensures id == old(id) && model == old(model) && state == old(state)
      ensures resumptionHandle == old(resumptionHandle) && createdAt == old(createdAt)
      ensures old(updatedAt) <= updatedAt && updatedAt == clock.time
      ensures old(clock.time) <= clock.time
    {
      log := log + [message];
      updatedAt := clock.Now();
    }
  }

  /** The registry shared by all connections. */
  class Store {
    var sessions: map<ID, Session>

    constructor NewStore()
      ensures sessions == map[]
    {
      sessions := map[];
    }

    /** Stores `session` under its ID, replacing any session stored there. */
    method Put(session: Session)
      modifies this
      ensures sessions == old(sessions)[session.id := session]
      ensures forall id :: id != session.id ==> Unchanged(old(sessions), sessions, id)
    {
      sessions := sessions[session.id := session];
    }

    /** Looks up `id` without changing the registry. */
    method Get(id: ID) returns (session: Session?, ok: bool)
      ensures ok <==> id in sessions
      ensures ok ==> session == sessions[id]
      ensures !ok ==> session == null
    {
      if id in sessions {
        session, ok := sessions[id], true;
      } else {
        session, ok := null, false;
      }
    }

    /** Removes `id`; removing an absent ID changes nothing. */
    method Delete(id: ID)
      modifies this
      ensures sessions == old(sessions) - {id}
      ensures id !in old(sessions) ==> sessions == old(sessions)
      ensures forall other :: other != id ==> Unchanged(old(sessions), sessions, other)
    {
      sessions := sessions - {id};
    }
  }

  /** `id` has the same mapping (or the same absence) in `m` and `m'`. */
  ghost predicate Unchanged(m: map<ID, Session>, m': map<ID, Session>, id: ID) {
    (id in m <==> id in m') && (id in m ==> m[id] == m'[id])
  }
}
