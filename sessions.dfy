/** Gemini chat sessions, one per user, kept while active and swept after an
    hour of inactivity. Times are `datetime` values counted in microseconds;
    the chat object itself is represented by a handle. */
module Sessions {

  datatype Session = Session(handle: nat, lastActivity: int)

  /** `timedelta(hours=1)`, in microseconds. */
  const SessionTimeout: int := 3600 * 1000000

  /** `_cleanup_old_sessions`: drops the sessions idle for strictly longer than
      the timeout and keeps the others untouched. */
  function Sweep(sessions: map<int, Session>, now: int): (r: map<int, Session>)
    ensures forall u :: u in r <==> u in sessions && now - sessions[u].lastActivity <= SessionTimeout
    ensures forall u :: u in r ==> r[u] == sessions[u]
  {
    map u | u in sessions && !(now - sessions[u].lastActivity > SessionTimeout) :: sessions[u]
  }

  /** The session bookkeeping of one Gemini chat call: an unknown user gets a
      new chat (the next handle); the user's session is marked active now. */
  function Open(sessions: map<int, Session>, next: nat, user: int, now: int): (map<int, Session>, nat) {
    if user in sessions then (sessions[user := sessions[user].(lastActivity := now)], next)
    else (sessions[user := Session(next, now)], next + 1)
  }

  /** What each Gemini chat call does first: sweep, then open or touch. */
  function Housekeep(sessions: map<int, Session>, next: nat, user: int, now: int): (map<int, Session>, nat) {
    Open(Sweep(sessions, now), next, user, now)
  }

  /** Handles are below the next one to hand out. */
  predicate HandlesBelow(sessions: map<int, Session>, next: nat) {
    forall u :: u in sessions ==> sessions[u].handle < next
  }

  /** A session idle for exactly the timeout is kept; one microsecond more and
      it is dropped. */
  lemma SweepBoundary(sessions: map<int, Session>, u: int, now: int)
    requires u in sessions
    ensures now - sessions[u].lastActivity == SessionTimeout ==> u in Sweep(sessions, now)
    ensures now - sessions[u].lastActivity == SessionTimeout + 1 ==> u !in Sweep(sessions, now)
  {
  }

  /** The user keeps their chat while it is live, a new chat gets a handle no
      other session has, the user ends up active at `now`, and no other live
      session changes. */
  lemma HousekeepSpec(sessions: map<int, Session>, next: nat, user: int, now: int)
    requires HandlesBelow(sessions, next)
    ensures var (s, n) := Housekeep(sessions, next, user, now);
            && HandlesBelow(s, n)
            && user in s && s[user].lastActivity == now
            && (user in Sweep(sessions, now) ==> s[user].handle == sessions[user].handle && n == next)
            && (user !in Sweep(sessions, now) ==>
                  n == next + 1 && forall u :: u in s && u != user ==> s[u].handle != s[user].handle)
            && s.Keys == Sweep(sessions, now).Keys + {user}
            && forall u :: u in s && u != user ==> s[u] == sessions[u]
  {
  }

  /** Several calls at the same instant leave the same state as one. */
  lemma HousekeepIdempotent(sessions: map<int, Session>, next: nat, user: int, now: int)
    ensures var (s, n) := Housekeep(sessions, next, user, now);
            Housekeep(s, n, user, now) == (s, n)
  {
    var (s, n) := Housekeep(sessions, next, user, now);
    assert Sweep(s, now) == s;
    assert s[user].lastActivity == now;
    assert s[user := s[user].(lastActivity := now)] == s;
  }
}
