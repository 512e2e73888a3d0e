/** Password recovery: single-use reset tokens that expire an hour after they are
    issued, the request that issues one without revealing whether the e-mail
    belongs to an account, and the reset that consumes one.  The clock is the
    parameter `now` (microseconds); hashing and uuids are inputs. */
module PasswordReset {
  import opened Wrappers
  import opened Store

  const MicrosPerHour: int := 3600 * 1000000
  const DefaultLifetimeHours: int := 1
  const MinPasswordLength: int := 6

  /** The row a new token starts as: unused, expiring `hours` after `now`. */
  function NewResetToken(idReset: string, email: string, token: string, now: int, hours: int): (r: ResetToken)
    ensures !r.used && r.expiresAt - now == hours * MicrosPerHour
    ensures r.idReset == idReset && r.email == email && r.token == token
  {
    ResetToken(idReset, email, token, now + hours * MicrosPerHour, false)
  }

  /** Unused and not yet expired: `now` is strictly before the expiry. */
  predicate IsValid(r: ResetToken, now: int) {
    !r.used && now < r.expiresAt
  }

  /** A fresh token is valid for exactly its lifetime: at every instant before
      the expiry and at none from the expiry on. */
  lemma NewTokenValidForItsLifetime(idReset: string, email: string, token: string, now: int, hours: int, at: int)
    ensures IsValid(NewResetToken(idReset, email, token, now, hours), at) <==> at < now + hours * MicrosPerHour
  {
  }

  /** Once used, a token is invalid at every time. */
  lemma UsedTokenNeverValid(r: ResetToken, at: int)
    requires r.used
    ensures !IsValid(r, at)
  {
  }

  /** Once expired, a token stays expired as the clock advances. */
  lemma ExpiredStaysExpired(r: ResetToken, now: int, later: int)
    requires !(now < r.expiresAt) && now <= later
    ensures !IsValid(r, later)
  {
  }

  /** The ORM object behind one row; `MarkAsUsed` flips the flag in place. */
  class PasswordResetToken {
    var idReset: string
    var email: string
    var token: string
    var expiresAt: int
    var used: bool

    function Row(): ResetToken
      reads this
    {
      ResetToken(idReset, email, token, expiresAt, used)
    }

    /** `__init__`: the expiry is `expires_in_hours` after the current time. */
    constructor (idReset: string, email: string, token: string, now: int, expiresInHours: int)
      ensures Row() == NewResetToken(idReset, email, token, now, expiresInHours)
    {
      this.idReset := idReset;
      this.email := email;
      this.token := token;
      this.expiresAt := now + expiresInHours * MicrosPerHour;
      this.used := false;
    }

    /** The object a query returns for a stored row. */
    constructor Loaded(r: ResetToken)
      ensures Row() == r
    {
      idReset, email, token, expiresAt, used := r.idReset, r.email, r.token, r.expiresAt, r.used;
    }

    function Valid(now: int): (b: bool)
      reads this
      ensures b <==> IsValid(Row(), now)
    {
      !used && now < expiresAt
    }

    /** Sets `used` and nothing else. */
    method MarkAsUsed()
      modifies this
      ensures Row() == old(Row()).(used := true)
      ensures forall at :: !Valid(at)
    {
      used := true;
    }
  }

  // ---------------------------------------------------------------------
  // POST /api/auth/forgot-password

  datatype ForgotReply =
    | EmailRequired      // 400
    | LinkSentIfExists   // 200, one message whether or not the account exists

  /** A token row is issued only for a registered e-mail; the reply is the same
      either way, and whether the mail was delivered does not matter. */
  function ForgotPassword(t: Tables, email: Option<string>, token: string, resetId: string,
                          now: int, mailSent: bool): (o: Outcome<ForgotReply>)
    ensures o.reply == EmailRequired <==> email.None? || email.value == ""
    ensures o.after != t <==> o.reply == LinkSentIfExists && UserByEmail(t.users, email.value).Some?
    ensures o.after != t ==>
      o.after == t.(resetTokens := t.resetTokens + [NewResetToken(resetId, email.value, token, now, DefaultLifetimeHours)])
  {
    if email.None? || email.value == "" then Outcome(EmailRequired, t)
    else if UserByEmail(t.users, email.value).None? then Outcome(LinkSentIfExists, t)
    else
      var row := NewResetToken(resetId, email.value, token, now, DefaultLifetimeHours);
      assert row in t.resetTokens + [row];
      Outcome(LinkSentIfExists, t.(resetTokens := t.resetTokens + [row]))
  }

  method ServeForgotPassword(db: Database, email: Option<string>, token: string, resetId: string,
                             now: int, mailSent: bool) returns (reply: ForgotReply)
    modifies db
    ensures Outcome(reply, db.Snapshot()) == ForgotPassword(old(db.Snapshot()), email, token, resetId, now, mailSent)
  {
    if email.None? || email.value == "" {
      return EmailRequired;
    }
    if UserByEmail(db.users, email.value).None? {
      return LinkSentIfExists;
    }
    var row := new PasswordResetToken(resetId, email.value, token, now, DefaultLifetimeHours);
    db.resetTokens := db.resetTokens + [row.Row()];
    reply := LinkSentIfExists;
  }

  /** The reply does not depend on the accounts, the tokens or the mail server:
      two databases that differ in whether the e-mail is registered answer alike. */
  lemma ForgotReplyRevealsNothing(t1: Tables, t2: Tables, email: Option<string>, token: string, resetId: string,
                                  now: int, sent1: bool, sent2: bool)
    ensures ForgotPassword(t1, email, token, resetId, now, sent1).reply ==
            ForgotPassword(t2, email, token, resetId, now, sent2).reply
  {
  }

  // ---------------------------------------------------------------------
  // POST /api/auth/reset-password

  datatype ResetReply =
    | ResetMissing          // 400: token or password missing
    | PasswordTooShort      // 400
    | TokenInvalid          // 400: unknown, used or expired, one message for all three
    | ResetUserNotFound     // 404
    | PasswordReset         // 200

  /** Both the token and the new password were sent and are non-empty. */
  predicate ResetFieldsGiven(token: Option<string>, password: Option<string>) {
    token.Some? && token.value != "" && password.Some? && password.value != ""
  }

  /** A stored token with this value exists, is unused and has not expired. */
  predicate UsableToken(t: Tables, token: string, now: int) {
    ResetTokenByValue(t.resetTokens, token).Some? &&
    IsValid(t.resetTokens[ResetTokenByValue(t.resetTokens, token).value], now)
  }

  function ResetPassword(t: Tables, token: Option<string>, password: Option<string>,
                         newHash: string, now: int): (o: Outcome<ResetReply>)
    ensures o.reply != PasswordReset ==> o.after == t
    ensures o.reply == ResetMissing <==> !ResetFieldsGiven(token, password)
    ensures o.reply == PasswordTooShort <==>
      ResetFieldsGiven(token, password) && |password.value| < MinPasswordLength
    ensures ResetFieldsGiven(token, password) && |password.value| >= MinPasswordLength &&
            UsableToken(t, token.value, now) ==>
      var row := t.resetTokens[ResetTokenByValue(t.resetTokens, token.value).value];
      (UserByEmail(t.users, row.email).None? <==> o.reply == ResetUserNotFound) &&
      (UserByEmail(t.users, row.email).Some? <==> o.reply == PasswordReset)
    ensures o.reply == TokenInvalid <==>
      o.reply != ResetMissing && o.reply != PasswordTooShort &&
      (ResetTokenByValue(t.resetTokens, token.value).None? ||
       !IsValid(t.resetTokens[ResetTokenByValue(t.resetTokens, token.value).value], now))
    ensures o.reply == PasswordReset ==>
      |password.value| >= MinPasswordLength &&
      ResetTokenByValue(t.resetTokens, token.value).Some? &&
      var k := ResetTokenByValue(t.resetTokens, token.value).value;
      IsValid(t.resetTokens[k], now) &&
      UserByEmail(t.users, t.resetTokens[k].email).Some? &&
      var u := UserByEmail(t.users, t.resetTokens[k].email).value;
      o.after == t.(users := t.users[u := t.users[u].(passwordHash := newHash)],
                    resetTokens := t.resetTokens[k := t.resetTokens[k].(used := true)])
  {
    if token.None? || token.value == "" || password.None? || password.value == "" then Outcome(ResetMissing, t)
    else if |password.value| < MinPasswordLength then Outcome(PasswordTooShort, t)
    else match ResetTokenByValue(t.resetTokens, token.value)
      case None => Outcome(TokenInvalid, t)
      case Some(k) =>
        var row := t.resetTokens[k];
        if !IsValid(row, now) then Outcome(TokenInvalid, t)
        else match UserByEmail(t.users, row.email)
          case None => Outcome(ResetUserNotFound, t)
          case Some(u) =>
            Outcome(PasswordReset, t.(users := t.users[u := t.users[u].(passwordHash := newHash)],
                                      resetTokens := t.resetTokens[k := row.(used := true)]))
  }

  method ServeResetPassword(db: Database, token: Option<string>, password: Option<string>,
                            newHash: string, now: int) returns (reply: ResetReply)
    modifies db
    ensures Outcome(reply, db.Snapshot()) == ResetPassword(old(db.Snapshot()), token, password, newHash, now)
  {
    if token.None? || token.value == "" || password.None? || password.value == "" {
      return ResetMissing;
    }
    if |password.value| < MinPasswordLength {
      return PasswordTooShort;
    }
    var found := ResetTokenByValue(db.resetTokens, token.value);
    if found.None? {
      return TokenInvalid;
    }
    var k := found.value;
    var row := new PasswordResetToken.Loaded(db.resetTokens[k]);
    if !row.Valid(now) {
      return TokenInvalid;
    }
    var u := UserByEmail(db.users, row.email);
    if u.None? {
      return ResetUserNotFound;
    }
    db.users := db.users[u.value := db.users[u.value].(passwordHash := newHash)];
    row.MarkAsUsed();
    db.resetTokens := db.resetTokens[k := row.Row()];
    reply := PasswordReset;
  }

  /** A token resets a password at most once: the same token fails afterwards,
      at any time and with any password. */
  lemma ResetTokenSingleUse(t: Tables, token: Option<string>, password: Option<string>, newHash: string, now: int,
                            password2: Option<string>, newHash2: string, later: int)
    requires ResetPassword(t, token, password, newHash, now).reply == PasswordReset
    requires password2.Some? && |password2.value| >= MinPasswordLength
    ensures ResetPassword(ResetPassword(t, token, password, newHash, now).after, token, password2, newHash2, later).reply
            == TokenInvalid
  {
    var k := ResetTokenByValue(t.resetTokens, token.value).value;
    var t1 := ResetPassword(t, token, password, newHash, now).after;
    assert t1.resetTokens == t.resetTokens[k := t.resetTokens[k].(used := true)];
    assert forall j :: 0 <= j < k ==> t1.resetTokens[j] == t.resetTokens[j];
    assert t1.resetTokens[k].token == token.value;
    assert ResetTokenByValue(t1.resetTokens, token.value) == Some(k);
  }

  /** Issuing and then using a token within the hour resets the password of the
      account that asked for it, when the issued token value is new. */
  lemma ForgotThenReset(t: Tables, email: string, token: string, resetId: string, now: int, mailSent: bool,
                        password: string, newHash: string, later: int)
    requires email != "" && UserByEmail(t.users, email).Some?
    requires token != "" && ResetTokenByValue(t.resetTokens, token).None?
    requires |password| >= MinPasswordLength
    requires later < now + DefaultLifetimeHours * MicrosPerHour
    ensures var t1 := ForgotPassword(t, Some(email), token, resetId, now, mailSent).after;
            var o := ResetPassword(t1, Some(token), Some(password), newHash, later);
            var u := UserByEmail(t.users, email).value;
            o.reply == PasswordReset && o.after.users == t.users[u := t.users[u].(passwordHash := newHash)]
  {
    var t1 := ForgotPassword(t, Some(email), token, resetId, now, mailSent).after;
    var row := NewResetToken(resetId, email, token, now, DefaultLifetimeHours);
    assert t1.resetTokens == t.resetTokens + [row];
    assert t1.resetTokens[|t.resetTokens|] == row;
    assert ResetTokenByValue(t1.resetTokens, token) == Some(|t.resetTokens|);
  }
}
