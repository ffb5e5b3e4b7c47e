/**
 * The voice-session table: an in-memory dictionary from session id to the
 * session's record. Ids come from `uuid4()` and the end time from the clock;
 * both are parameters here.
 */
module LiveKitService {
  import opened Base
  import opened Timestamps

  /** The record kept per session: the caller's phone, and when the call started and ended. */
  datatype SessionInfo = SessionInfo(customerPhone: string, startedAt: Option<Timestamp>, endedAt: Option<Timestamp>)

  /** The table after `end_session(sessionId)` at `now`, for a known id. */
  function Ended(sessions: map<string, SessionInfo>, sessionId: string, now: Timestamp): (m: map<string, SessionInfo>)
    requires sessionId in sessions
    ensures m.Keys == sessions.Keys
    ensures forall k :: k in sessions && k != sessionId ==> m[k] == sessions[k]
    ensures m[sessionId].endedAt == Some(now)
    ensures m[sessionId].customerPhone == sessions[sessionId].customerPhone
    ensures m[sessionId].startedAt == sessions[sessionId].startedAt
  {
    sessions[sessionId := sessions[sessionId].(endedAt := Some(now))]
  }

  /** Ending a session a second time only moves its end time. */
  lemma EndedTwice(sessions: map<string, SessionInfo>, sessionId: string, first: Timestamp, second: Timestamp)
    requires sessionId in sessions
    ensures Ended(Ended(sessions, sessionId, first), sessionId, second) == Ended(sessions, sessionId, second)
  {
  }

  class LiveKitService {
    /** `active_sessions`. */
    var activeSessions: map<string, SessionInfo>

    constructor()
      ensures activeSessions == map[]
    {
      activeSessions := map[];
    }

    /**
     * `create_session`: records a session for the caller, neither started nor
     * ended, under the id `sessionId` (the fresh uuid), and returns that id.
     */
    method CreateSession(customerPhone: string, sessionId: string) returns (id: string)
      modifies this
      ensures id == sessionId
      ensures activeSessions == old(activeSessions)[sessionId := SessionInfo(customerPhone, None, None)]
    {
      activeSessions := activeSessions[sessionId := SessionInfo(customerPhone, None, None)];
      return sessionId;
    }

    /** `end_session`: stamps the end time of a known session; an unknown id changes nothing. */
    method EndSession(sessionId: string, now: Timestamp) returns (ok: bool)
      modifies this
      ensures ok <==> sessionId in old(activeSessions)
      ensures activeSessions == if ok then Ended(old(activeSessions), sessionId, now) else old(activeSessions)
    {
      if sessionId in activeSessions {
        activeSessions := activeSessions[sessionId := activeSessions[sessionId].(endedAt := Some(now))];
        return true;
      }
      return false;
    }

    /** `get_session_info`: the stored record, or `None` for an unknown id. */
    function GetSessionInfo(sessionId: string): (r: Option<SessionInfo>)
      reads this
      ensures r.Some? <==> sessionId in activeSessions
      ensures r.Some? ==> r.value == activeSessions[sessionId]
    {
      if sessionId in activeSessions then Some(activeSessions[sessionId]) else None
    }
  }
}
