/** Logging out after inactivity: user activity refreshes the stored time and a
    periodic check signs the user out once more than the threshold has passed
    since it. */
module SessionTimeout {
  import opened Wrappers
  import opened Text
  import opened SessionManager
  import opened AuthContext

  /** 30 minutes, in milliseconds: 1 800 000. */
  const DefaultInactivityMs: int := 30 * 60 * 1000

  datatype CheckResult =
    | NoSession      // nothing to check
    | Bootstrapped   // a session without a recorded time: record one now
    | StillActive
    | TimedOut       // logout(true)

  /** `updateActivity`: records the time only for an authenticated user with a
      token in the store. */
  function ActivityUpdate(isAuthenticated: bool, items: map<string, string>, now: int): (m: map<string, string>)
    ensures m != items ==> isAuthenticated && HasActiveSession(items)
    ensures isAuthenticated && HasActiveSession(items) ==> m == WithLastActivity(items, now)
  {
    if isAuthenticated && HasActiveSession(items) then WithLastActivity(items, now) else items
  }

  /** `checkExpiration`'s decision and the store it leaves. */
  function Expiration(items: map<string, string>, now: int, threshold: int): (r: (CheckResult, map<string, string>))
    ensures r.0 == NoSession <==> !HasActiveSession(items)
    ensures r.0 == Bootstrapped <==> HasActiveSession(items) && !RecordedActivity(LastActivityOf(items))
    ensures r.0 == StillActive <==>
      HasActiveSession(items) && RecordedActivity(LastActivityOf(items)) &&
      now - LastActivityOf(items).value.value <= threshold
    ensures r.0 == TimedOut <==>
      HasActiveSession(items) && RecordedActivity(LastActivityOf(items)) &&
      now - LastActivityOf(items).value.value > threshold
    ensures r.0 == TimedOut ==> r.1 == Cleared(items)
    ensures r.0 == Bootstrapped ==> r.1 == WithLastActivity(items, now)
    ensures r.0 == NoSession || r.0 == StillActive ==> r.1 == items
  {
    if !HasActiveSession(items) then (NoSession, items)
    else if !RecordedActivity(LastActivityOf(items)) then (Bootstrapped, WithLastActivity(items, now))
    else
      var elapsed := TimeSinceLastActivity(items, now).value;
      if elapsed > threshold then (TimedOut, Cleared(items)) else (StillActive, items)
  }

  method UpdateActivity(auth: AuthProvider, now: int)
    modifies auth.ls
    ensures auth.ls.items == ActivityUpdate(auth.isAuthenticated, old(auth.ls.items), now)
  {
    if auth.isAuthenticated && HasActiveSession(auth.ls.items) {
      SetLastActivity(auth.ls, now);
    }
  }

  method CheckExpiration(auth: AuthProvider, now: int, threshold: int) returns (r: CheckResult)
    modifies auth, auth.ls
    ensures (r, auth.ls.items) == Expiration(old(auth.ls.items), now, threshold)
    ensures r == TimedOut ==> auth.State() == LoggedOut(old(auth.State())) && auth.navigation == Some(Home)
    ensures r != TimedOut ==> auth.State() == old(auth.State()) && auth.navigation == old(auth.navigation)
  {
    if !HasActiveSession(auth.ls.items) {
      return NoSession;
    }
    var last := LastActivityOf(auth.ls.items);
    if !RecordedActivity(last) {
      SetLastActivity(auth.ls, now);
      return Bootstrapped;
    }
    var elapsed := TimeSinceLastActivity(auth.ls.items, now);
    if elapsed.Some? && elapsed.value > threshold {
      auth.Logout(true);
      return TimedOut;
    }
    return StillActive;
  }

  /** A forced logout ends the session: every later check is a no-op and
      activity records nothing, so a session is timed out at most once. */
  lemma TimedOutOnce(items: map<string, string>, now: int, threshold: int, later: int, isAuthenticated: bool)
    requires Expiration(items, now, threshold).0 == TimedOut
    ensures var m := Expiration(items, now, threshold).1;
            Expiration(m, later, threshold) == (NoSession, m) &&
            ActivityUpdate(isAuthenticated, m, later) == m
  {
    ClearedHasNoSession(items);
  }

  /** After a bootstrap at a non-zero time, checks within the threshold keep the
      session. */
  lemma BootstrapKeepsSession(items: map<string, string>, now: int, threshold: int, later: int)
    requires Expiration(items, now, threshold).0 == Bootstrapped && now != 0
    requires later - now <= threshold
    ensures Expiration(Expiration(items, now, threshold).1, later, threshold).0 == StillActive
  {
    LastActivityReadsBack(items, now);
    SetLastActivityFrame(items, now);
  }

  /** Activity at a non-zero time keeps an authenticated session alive for
      every check within the threshold after it. */
  lemma ActivityKeepsSession(items: map<string, string>, now: int, threshold: int, later: int)
    requires HasActiveSession(items) && now != 0
    requires later - now <= threshold
    ensures Expiration(ActivityUpdate(true, items, now), later, threshold).0 == StillActive
  {
    LastActivityReadsBack(items, now);
    SetLastActivityFrame(items, now);
  }

  /** Under a clock that does not go back, neither activity nor a check moves
      the recorded time backwards. */
  lemma LastActivityNeverDecreases(items: map<string, string>, n: int, now: int, threshold: int, isAuthenticated: bool)
    requires LastActivityOf(items) == Some(Int(n)) && n <= now
    ensures var m := Expiration(items, now, threshold).1;
            LastActivityOf(m).Some? ==> LastActivityOf(m).value.Int? && LastActivityOf(m).value.value >= n
    ensures var m := ActivityUpdate(isAuthenticated, items, now);
            LastActivityOf(m).value.Int? && LastActivityOf(m).value.value >= n
  {
    LastActivityReadsBack(items, now);
  }
}
