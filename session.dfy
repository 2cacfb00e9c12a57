/**
 * Voice sessions: the conversation history of one caller with its de-duplication and truncation,
 * the recent-context window, expiry, and the manager that holds the live sessions.
 * Instants are microseconds; the clock and the random session id are supplied by the caller,
 * and the history limit is the configured `MAX_CONVERSATION_HISTORY`.
 */
module Sessions {
  import opened Wrappers

  const MICROS_PER_SECOND: int := 1000000

  datatype Turn = Turn(role: string, text: string, timestamp: int, intent: Option<string>)

  /** Python's `s[start:]`: a negative start counts from the end, and both are clamped to the sequence. */
  function SliceFrom<T>(s: seq<T>, start: int): (r: seq<T>)
    ensures |r| <= |s| && r == s[|s| - |r|..]
    ensures start >= 0 ==> |r| == if start <= |s| then |s| - start else 0
    ensures start < 0 ==> |r| == if -start <= |s| then -start else |s|
  {
    if start >= 0 then (if start <= |s| then s[start..] else [])
    else if |s| + start >= 0 then s[|s| + start..] else s
  }

  /** The last `n` elements, or all of them when there are fewer. */
  function LastN<T>(s: seq<T>, n: nat): (r: seq<T>)
    ensures |r| == if n <= |s| then n else |s|
    ensures r == s[|s| - |r|..]
  {
    if n <= |s| then s[|s| - n..] else s
  }

  /** For a positive count, Python's `s[-n:]` is the last `n` elements. */
  lemma SliceFromNegative<T>(s: seq<T>, n: int)
    requires n > 0
    ensures SliceFrom(s, -n) == LastN(s, n)
  {
  }

  /** The truncation in `add_turn`: once over the limit, keep the last `max` turns (as Python's slice does). */
  function Truncated(h: seq<Turn>, max: int): (r: seq<Turn>)
    ensures |r| <= |h| && r == h[|h| - |r|..]
    ensures |h| <= max ==> r == h
    ensures max > 0 ==> |r| == if |h| > max then max else |h|
  {
    if |h| > max then SliceFrom(h, -max) else h
  }

  /** With a positive limit the history keeps its newest `max` turns. */
  lemma TruncatedBound(h: seq<Turn>, max: int)
    ensures max > 0 ==> Truncated(h, max) == LastN(h, max) && |Truncated(h, max)| <= max
  {
    if max > 0 { SliceFromNegative(h, max); }
  }

  /** `add_turn` on the history: a repeat of the last turn (same role and text) is dropped; otherwise
      the turn is appended and the history truncated. */
  predicate RepeatsLast(h: seq<Turn>, role: string, text: string)
  {
    h != [] && h[|h| - 1].text == text && h[|h| - 1].role == role
  }

  function AddedTurn(h: seq<Turn>, role: string, text: string, intent: Option<string>, now: int, max: int): (r: seq<Turn>)
    ensures RepeatsLast(h, role, text) ==> r == h
    ensures !RepeatsLast(h, role, text) && max > 0 ==>
      |r| <= max && r != [] && r[|r| - 1] == Turn(role, text, now, intent) && r == LastN(h + [r[|r| - 1]], max)
  {
    if RepeatsLast(h, role, text) then h
    else
      var r := Truncated(h + [Turn(role, text, now, intent)], max);
      TruncatedBound(h + [Turn(role, text, now, intent)], max);
      r
  }

  /** Saying the same thing twice in a row leaves one turn. */
  lemma AddTurnRepeatIsDropped(h: seq<Turn>, role: string, text: string, intent: Option<string>, now: int,
                               intent2: Option<string>, later: int, max: int)
    requires max > 0
    ensures var once := AddedTurn(h, role, text, intent, now, max);
      AddedTurn(once, role, text, intent2, later, max) == once
  {
  }

  /** `get_recent_context` as written: `history[-max_turns:]`. */
  function RecentContextAsWritten(h: seq<Turn>, maxTurns: int): (r: seq<Turn>)
    ensures |r| <= |h| && r == h[|h| - |r|..]
    ensures maxTurns > 0 ==> |r| == if maxTurns <= |h| then maxTurns else |h|
    ensures maxTurns == 0 ==> r == h
  {
    SliceFrom(h, -maxTurns)
  }

  /** As written, a window of zero turns returns the whole history, and a negative one drops the oldest turns. */
  lemma RecentContextZeroIsEverything(h: seq<Turn>)
    ensures RecentContextAsWritten(h, 0) == h
    ensures |h| > 2 ==> RecentContextAsWritten(h, -2) == h[2..]
  {
  }

  /** `get_recent_context` as intended: the last `max_turns` turns, none for a window of zero or less. */
  function RecentContext(h: seq<Turn>, maxTurns: int): (r: seq<Turn>)
    ensures |r| == if maxTurns <= 0 then 0 else if maxTurns <= |h| then maxTurns else |h|
    ensures r == h[|h| - |r|..]
  {
    if maxTurns <= 0 then [] else LastN(h, maxTurns)
  }

  /** The two agree on every positive window. */
  lemma RecentContextAgrees(h: seq<Turn>, maxTurns: int)
    requires maxTurns > 0
    ensures RecentContext(h, maxTurns) == RecentContextAsWritten(h, maxTurns)
  {
    SliceFromNegative(h, maxTurns);
  }

  /** `is_expired`: strictly more than the timeout has elapsed since the last activity. */
  predicate ExpiredAt(lastActiveAt: int, now: int, timeoutSeconds: int)
  {
    now - lastActiveAt > timeoutSeconds * MICROS_PER_SECOND
  }

  /** Expiry is monotone in time: once expired, a session stays expired. */
  lemma ExpiryMonotone(lastActiveAt: int, now: int, later: int, timeoutSeconds: int)
    requires ExpiredAt(lastActiveAt, now, timeoutSeconds) && now <= later
    ensures ExpiredAt(lastActiveAt, later, timeoutSeconds)
  {
  }

  class VoiceSession {
    const sessionId: string
    const userId: Option<string>
    const ordId: Option<string>
    const startedAt: int
    var lastActiveAt: int
    var history: seq<Turn>

    constructor (sessionId: string, userId: Option<string>, ordId: Option<string>, now: int)
      ensures this.sessionId == sessionId && this.userId == userId && this.ordId == ordId
      ensures startedAt == now && lastActiveAt == now && history == []
    {
      this.sessionId, this.userId, this.ordId := sessionId, userId, ordId;
      startedAt, lastActiveAt, history := now, now, [];
    }

    /** `add_turn`: the activity time moves only when the turn is kept. */
    method AddTurn(role: string, text: string, intent: Option<string>, now: int, maxHistory: int)
      modifies this
      ensures history == AddedTurn(old(history), role, text, intent, now, maxHistory)
      ensures lastActiveAt == if RepeatsLast(old(history), role, text) then old(lastActiveAt) else now
    {
      if history != [] {
        var last := history[|history| - 1];
        if last.text == text && last.role == role {
          return;
        }
      }
      var turn := Turn(role, text, now, intent);
      history := history + [turn];
      lastActiveAt := now;
      if |history| > maxHistory {
        history := SliceFrom(history, -maxHistory);
      }
    }

    /** `get_recent_context` as written: the last `maxTurns` turns for a positive window, while a window of
        zero gives the whole history and a negative one drops the oldest turns (see RecentContextZeroIsEverything). */
    function GetRecentContext(maxTurns: int): (r: seq<Turn>)
      reads this
      ensures maxTurns > 0 ==> r == RecentContext(history, maxTurns)
      ensures maxTurns <= 0 ==> r == history[if -maxTurns <= |history| then -maxTurns else |history|..]
    {
      RecentContextAgreesIfPositive(history, maxTurns);
      RecentContextAsWritten(history, maxTurns)
    }

    /** `is_expired` */
    predicate IsExpired(now: int, timeoutSeconds: int)
      reads this
    {
      ExpiredAt(lastActiveAt, now, timeoutSeconds)
    }
  }

  lemma RecentContextAgreesIfPositive(h: seq<Turn>, maxTurns: int)
    ensures maxTurns > 0 ==> RecentContext(h, maxTurns) == RecentContextAsWritten(h, maxTurns)
  {
    if maxTurns > 0 { RecentContextAgrees(h, maxTurns); }
  }

  /** The live sessions, by id. */
  class SessionManager {
    var sessions: map<string, VoiceSession>

    constructor ()
      ensures sessions == map[]
    {
      sessions := map[];
    }

    /** `create_session`: a new session registered under its id. */
    method CreateSession(sessionId: string, userId: Option<string>, ordId: Option<string>, now: int)
      returns (s: VoiceSession)
      modifies this
      ensures fresh(s) && s.sessionId == sessionId && s.userId == userId && s.ordId == ordId
      ensures s.history == [] && s.lastActiveAt == now
      ensures sessions == old(sessions)[sessionId := s]
      ensures GetSession(sessionId) == Some(s)
    {
      s := new VoiceSession(sessionId, userId, ordId, now);
      sessions := sessions[sessionId := s];
    }

    /** `get_session` */
    function GetSession(sessionId: string): (r: Option<VoiceSession>)
      reads this
      ensures r.Some? <==> sessionId in sessions
      ensures r.Some? ==> r.value == sessions[sessionId]
    {
      if sessionId in sessions then Some(sessions[sessionId]) else None
    }

    /**
     * The ids of the sessions idle for longer than the timeout. Each session's `is_expired` reads the clock
     * itself, so `clock(sid)` is the instant read while session `sid` is checked.
     */
    function ExpiredIds(clock: string -> int, timeoutSeconds: int): (r: set<string>)
      reads this, sessions.Values
      ensures forall sid :: sid in r <==> sid in sessions && sessions[sid].IsExpired(clock(sid), timeoutSeconds)
    {
      set sid | sid in sessions && sessions[sid].IsExpired(clock(sid), timeoutSeconds)
    }

    /** Every session already expired when the sweep starts is collected, whatever later instants it reads. */
    lemma ExpiredWhenStarted(start: int, clock: string -> int, timeoutSeconds: int)
      requires forall sid :: sid in sessions ==> start <= clock(sid)
      ensures ExpiredIds(_ => start, timeoutSeconds) <= ExpiredIds(clock, timeoutSeconds)
    {
      forall sid | sid in ExpiredIds(_ => start, timeoutSeconds)
        ensures sid in ExpiredIds(clock, timeoutSeconds)
      {
        ExpiryMonotone(sessions[sid].lastActiveAt, start, clock(sid), timeoutSeconds);
      }
    }

    /** `cleanup_expired_sessions`: exactly the expired sessions go, the rest stay untouched, and the count is returned. */
    method CleanupExpiredSessions(clock: string -> int, timeoutSeconds: int) returns (removed: nat)
      modifies this
      ensures removed == |old(ExpiredIds(clock, timeoutSeconds))|
      ensures sessions == map sid | sid in old(sessions) && sid !in old(ExpiredIds(clock, timeoutSeconds)) :: old(sessions)[sid]
    {
      var expired := ExpiredIds(clock, timeoutSeconds);
      var pending := expired;
      removed := 0;
      ghost var original := sessions;
      while pending != {}
        invariant pending <= expired && expired <= original.Keys
        invariant removed == |expired| - |pending|
        invariant sessions == map sid | sid in original && (sid !in expired || sid in pending) :: original[sid]
        decreases |pending|
      {
        var sid :| sid in pending;
        sessions := map k | k in sessions && k != sid :: sessions[k];
        pending := pending - {sid};
        removed := removed + 1;
      }
    }
  }
}
