/** The browser's session store: five localStorage keys written at login,
    refreshed on activity and removed at logout.  `now` is `Date.now()` in
    milliseconds. */
module SessionManager {
  import opened Wrappers
  import opened Text

  const TokenKey: string := "token"
  const RoleKey: string := "userRole"
  const IdKey: string := "userId"
  const NameKey: string := "userName"
  const LastActivityKey: string := "lastActivity"

  const SessionKeys: set<string> := {TokenKey, RoleKey, IdKey, NameKey, LastActivityKey}

  /** `window.localStorage`: a string-to-string map shared by the whole page. */
  class Storage {
    var items: map<string, string>

    constructor (items0: map<string, string>)
      ensures items == items0
    {
      items := items0;
    }

    function GetItem(key: string): (v: Option<string>)
      reads this
      ensures v == Lookup(items, key)
    {
      if key in items then Some(items[key]) else None
    }

    method SetItem(key: string, value: string)
      modifies this
      ensures items == old(items)[key := value]
    {
      items := items[key := value];
    }

    method RemoveItem(key: string)
      modifies this
      ensures items == old(items) - {key}
    {
      items := items - {key};
    }
  }

  /** `getItem`: `null` for an absent key. */
  function Lookup(items: map<string, string>, key: string): (v: Option<string>)
    ensures v.Some? <==> key in items
    ensures v.Some? ==> v.value == items[key]
  {
    if key in items then Some(items[key]) else None
  }

  /** A session is active iff the token is present and non-empty (`!!getToken()`). */
  predicate HasActiveSession(items: map<string, string>) {
    TokenKey in items && items[TokenKey] != ""
  }

  /** `getLastActivity`: `null` when the key is absent or empty, else the
      value `parseInt` makes of it (possibly NaN). */
  function LastActivityOf(items: map<string, string>): (r: Option<JsInt>)
    ensures r.None? <==> LastActivityKey !in items || items[LastActivityKey] == ""
  {
    if LastActivityKey !in items || items[LastActivityKey] == "" then None
    else Some(ParseInt(items[LastActivityKey]))
  }

  /** JavaScript truthiness of `getLastActivity()`: null, NaN and 0 are false. */
  predicate RecordedActivity(r: Option<JsInt>) {
    r.Some? && r.value.Int? && r.value.value != 0
  }

  /** `getTimeSinceLastActivity`: null without recorded activity (a stored 0
      counts as none), else the milliseconds elapsed since it. */
  function TimeSinceLastActivity(items: map<string, string>, now: int): (r: Option<int>)
    ensures r.None? <==> !RecordedActivity(LastActivityOf(items))
  {
    var last := LastActivityOf(items);
    if !RecordedActivity(last) then None else Some(now - last.value.value)
  }

  /** The login data `setSessionData` receives. */
  datatype SessionData = SessionData(token: string, userRole: string, userId: string, userName: string)

  function WithLastActivity(items: map<string, string>, now: int): map<string, string> {
    items[LastActivityKey := IntToString(now)]
  }

  function WithSession(items: map<string, string>, d: SessionData, now: int): map<string, string> {
    WithLastActivity(items[TokenKey := d.token][RoleKey := d.userRole][IdKey := d.userId][NameKey := d.userName], now)
  }

  function Cleared(items: map<string, string>): map<string, string> {
    items - SessionKeys
  }

  /** `setLastActivity`: writes the current time, as text. */
  method SetLastActivity(ls: Storage, now: int)
    modifies ls
    ensures ls.items == WithLastActivity(old(ls.items), now)
  {
    ls.SetItem(LastActivityKey, IntToString(now));
  }

  /** `setSessionData`: the four values, then the current time. */
  method SetSessionData(ls: Storage, d: SessionData, now: int)
    modifies ls
    ensures ls.items == WithSession(old(ls.items), d, now)
  {
    ls.SetItem(TokenKey, d.token);
    ls.SetItem(RoleKey, d.userRole);
    ls.SetItem(IdKey, d.userId);
    ls.SetItem(NameKey, d.userName);
    SetLastActivity(ls, now);
  }

  /** `clearSession`: removes the five keys, one at a time. */
  method ClearSession(ls: Storage)
    modifies ls
    ensures ls.items == Cleared(old(ls.items))
  {
    ls.RemoveItem(TokenKey);
    ls.RemoveItem(RoleKey);
    ls.RemoveItem(IdKey);
    ls.RemoveItem(NameKey);
    ls.RemoveItem(LastActivityKey);
  }

  /** A time written by `setLastActivity` reads back as the same number. */
  lemma LastActivityReadsBack(items: map<string, string>, now: int)
    ensures LastActivityOf(WithLastActivity(items, now)) == Some(Int(now))
  {
    var s := IntToString(now);
    ParseIntOfIntToString(now);
    assert s != "" by {
      if now >= 0 {
        assert |NatToString(now)| >= 1;
      }
    }
  }

  /** Right after `setLastActivity(t)`, the elapsed time at `now` is `now - t`,
      unless `t` is 0, which reads as no activity at all. */
  lemma TimeSinceWrite(items: map<string, string>, t: int, now: int)
    ensures TimeSinceLastActivity(WithLastActivity(items, t), now) == (if t == 0 then None else Some(now - t))
  {
    LastActivityReadsBack(items, t);
  }

  /** `setSessionData` makes the session active iff the token is non-empty, and
      every getter returns what was stored. */
  lemma SessionDataReadsBack(items: map<string, string>, d: SessionData, now: int)
    ensures var m := WithSession(items, d, now);
            (HasActiveSession(m) <==> d.token != "") &&
            Lookup(m, TokenKey) == Some(d.token) && Lookup(m, RoleKey) == Some(d.userRole) &&
            Lookup(m, IdKey) == Some(d.userId) && Lookup(m, NameKey) == Some(d.userName) &&
            LastActivityOf(m) == Some(Int(now))
  {
    LastActivityReadsBack(items[TokenKey := d.token][RoleKey := d.userRole][IdKey := d.userId][NameKey := d.userName], now);
  }

  /** After `clearSession` every getter returns null and no session is active,
      while every other key keeps its value. */
  lemma ClearedHasNoSession(items: map<string, string>)
    ensures var m := Cleared(items);
            !HasActiveSession(m) && LastActivityOf(m).None? && TimeSinceLastActivity(m, 0).None? &&
            Lookup(m, TokenKey).None? && Lookup(m, RoleKey).None? && Lookup(m, IdKey).None? && Lookup(m, NameKey).None?
    ensures forall k :: k !in SessionKeys ==> Lookup(Cleared(items), k) == Lookup(items, k)
  {
  }

  /** `setLastActivity` changes only the lastActivity key. */
  lemma SetLastActivityFrame(items: map<string, string>, now: int)
    ensures forall k :: k != LastActivityKey ==> Lookup(WithLastActivity(items, now), k) == Lookup(items, k)
    ensures HasActiveSession(WithLastActivity(items, now)) == HasActiveSession(items)
  {
  }
}
