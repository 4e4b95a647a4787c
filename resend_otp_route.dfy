/**
 * `POST /api/resend-otp`: issues a new code for a pending registration, at most
 * once every two minutes. The time a code was issued is not stored; the handler
 * derives it from the stored expiry by subtracting the code lifetime.
 */
module ResendOtpRoute {
  import opened Wrappers
  import opened Text
  import opened Http
  import opened PendingUserModel
  import opened Store

  /** Two minutes must pass between two codes. */
  const ResendInterval: int := 2 * 60 * 1000

  const MinuteMs: int := 60 * 1000

  datatype Request = Request(verificationToken: Option<string>)

  datatype Reply =
    | Rejected(status: Status, error: string)
    /** The 429 reply, asking the caller to wait this many minutes. */
    | TooSoon(waitMinutes: nat)
    /** The 200 reply: a new code was stored and mailed. */
    | Resent
  {
    function StatusOf(): Status {
      match this
      case Rejected(s, _) => s
      case TooSoon(_) => TooManyRequests
      case Resent => Ok
    }

    function Message(): string {
      match this
      case Rejected(_, e) => e
      case TooSoon(w) => "Bitte warte noch " + DecimalString(w) + " Minute(n) bevor du einen neuen Code anforderst."
      case Resent => "Neuer Code wurde gesendet! Prüfe deine E-Mails."
    }
  }

  const MissingToken := "Verification-Token ist erforderlich"
  const UnknownToken := "Ungültiger oder abgelaufener Verifizierungslink"
  const SendFailed := "Neuer Code konnte nicht gesendet werden"
  const RequestFailed := "Neuer Code konnte nicht angefordert werden"

  datatype Outcome = Outcome(pending: seq<PendingUser>, reply: Reply)

  /** `Math.ceil(a / b)` for a positive divisor. */
  function CeilDiv(a: int, b: int): (q: int)
    requires b > 0
    ensures (q - 1) * b < a <= q * b
    ensures a > 0 ==> q >= 1
  {
    -((-a) / b)
  }

  /** When the stored code was issued, as the handler reconstructs it. */
  function IssuedAt(expires: int): int {
    expires - OtpLifetime
  }

  /** The rate limit: a stored expiry whose code was issued less than two minutes before `now`. */
  predicate Throttled(p: PendingUser, now: int) {
    p.otpExpires.Some? && IssuedAt(p.otpExpires.value) > now - ResendInterval
  }

  /** The wait the handler reports: whole minutes, rounded up, until two minutes after issue. */
  function WaitMinutes(p: PendingUser, now: int): (w: nat)
    requires Throttled(p, now)
    ensures w >= 1
  {
    CeilDiv(IssuedAt(p.otpExpires.value) - (now - ResendInterval), MinuteMs)
  }

  /** The effect of the handler on the pending collection. */
  function ResendOutcome(pending: seq<PendingUser>, req: Request, draw: real, mailOk: bool, now: int): Outcome
    requires 0.0 <= draw < 1.0
  {
    if !Present(req.verificationToken) then Outcome(pending, Rejected(BadRequest, MissingToken))
    else
      var i := FindPendingByToken(pending, req.verificationToken.value);
      if i < 0 then Outcome(pending, Rejected(NotFound, UnknownToken))
      else
        var p := pending[i];
        if Throttled(p, now) then Outcome(pending, TooSoon(WaitMinutes(p, now)))
        else
          var q := Reissued(p, OtpCode(draw), now);
          if !PendingSaveOk(pending, q) then Outcome(pending, Rejected(InternalError, RequestFailed))
          else if !mailOk then Outcome(ReplacePending(pending, q), Rejected(InternalError, SendFailed))
          else Outcome(ReplacePending(pending, q), Resent)
  }

  /** The handler, step by step against the collection. */
  method Post(db: Database, req: Request, draw: real, mailOk: bool, now: int) returns (reply: Reply)
    requires db.Valid() && 0.0 <= draw < 1.0
    modifies db
    ensures db.Valid()
    ensures var o := ResendOutcome(old(db.pending), req, draw, mailOk, now);
      db.pending == o.pending && reply == o.reply
    ensures db.users == old(db.users) && db.campaigns == old(db.campaigns) && db.nextId == old(db.nextId)
  {
    if !Present(req.verificationToken) {
      return Rejected(BadRequest, MissingToken);
    }
    var i := FindPendingByToken(db.pending, req.verificationToken.value);
    if i < 0 {
      return Rejected(NotFound, UnknownToken);
    }
    var p := db.pending[i];
    if p.otpExpires.Some? {
      var twoMinutesAgo := now - ResendInterval;
      var otpCreatedAt := p.otpExpires.value - 15 * 60 * 1000;
      if otpCreatedAt > twoMinutesAgo {
        var waitTime := CeilDiv(otpCreatedAt - twoMinutesAgo, 1000 * 60);
        return TooSoon(waitTime);
      }
    }
    var doc := new PendingUserDoc.Load(p);
    var code := doc.GenerateOtp(draw, now);
    assert db.pending[i].id == doc.Record().id;
    var saved := db.SavePending(doc.Record());
    if !saved {
      return Rejected(InternalError, RequestFailed);
    }
    if !mailOk {
      return Rejected(InternalError, SendFailed);
    }
    return Resent;
  }

  // ----- Properties -----

  /** Without a token the reply is 400; with a token no record carries, 404; neither changes the collection. */
  lemma MissingOrUnknownToken(pending: seq<PendingUser>, req: Request, draw: real, mailOk: bool, now: int)
    requires 0.0 <= draw < 1.0
    requires !Present(req.verificationToken)
          || forall j :: 0 <= j < |pending| ==> pending[j].verificationToken != req.verificationToken.value
    ensures var o := ResendOutcome(pending, req, draw, mailOk, now);
      && o.pending == pending
      && o.reply == if !Present(req.verificationToken) then Rejected(BadRequest, MissingToken) else Rejected(NotFound, UnknownToken)
  {
  }

  /**
   * For the record carrying the token, the request is refused with 429 exactly when an
   * expiry is stored and its code was issued less than two minutes before `now`; the
   * record is then left as it was. A record without an expiry is never refused.
   */
  lemma RefusedExactlyWhenRecent(pending: seq<PendingUser>, req: Request, draw: real, mailOk: bool, now: int, i: nat)
    requires 0.0 <= draw < 1.0
    requires Present(req.verificationToken) && TokensUnique(pending)
    requires i < |pending| && pending[i].verificationToken == req.verificationToken.value
    ensures var o := ResendOutcome(pending, req, draw, mailOk, now);
      && (o.reply.TooSoon? <==> pending[i].otpExpires.Some? && pending[i].otpExpires.value - 900000 > now - 120000)
      && (o.reply.TooSoon? ==> o.pending == pending && o.reply.StatusOf().Code() == 429)
      && (pending[i].otpExpires.None? ==> !o.reply.TooSoon?)
  {
    FoundByToken(pending, req.verificationToken.value, i);
  }

  /**
   * The reported wait is the number of minutes, rounded up, from now until two minutes
   * after issue: at least 1, and at most 2 when the code was issued in the past.
   */
  lemma WaitBounds(p: PendingUser, now: int)
    requires Throttled(p, now)
    ensures var d := IssuedAt(p.otpExpires.value) - (now - ResendInterval);
      (WaitMinutes(p, now) - 1) * MinuteMs < d <= WaitMinutes(p, now) * MinuteMs
    ensures WaitMinutes(p, now) >= 1
    ensures IssuedAt(p.otpExpires.value) <= now ==> WaitMinutes(p, now) <= 2
  {
  }

  /**
   * When not refused and the save succeeds, only the record carrying the token changes:
   * it gets the new code and an expiry of `now + OtpLifetime`. The new code stays stored
   * when the mail fails; the reply is then 500.
   */
  lemma ReissueReplacesRecord(pending: seq<PendingUser>, req: Request, draw: real, mailOk: bool, now: int, i: nat)
    requires 0.0 <= draw < 1.0
    requires Present(req.verificationToken) && TokensUnique(pending) && PendingIdsUnique(pending)
    requires i < |pending| && pending[i].verificationToken == req.verificationToken.value
    requires !Throttled(pending[i], now)
    requires PendingSaveOk(pending, Reissued(pending[i], OtpCode(draw), now))
    ensures var o := ResendOutcome(pending, req, draw, mailOk, now);
      && o.pending == pending[i := Reissued(pending[i], OtpCode(draw), now)]
      && o.pending[i].otp == Some(OtpCode(draw)) && o.pending[i].otpExpires == Some(now + OtpLifetime)
      && o.reply == if mailOk then Resent else Rejected(InternalError, SendFailed)
  {
    FoundByToken(pending, req.verificationToken.value, i);
    ReplaceAtIndex(pending, i, Reissued(pending[i], OtpCode(draw), now));
  }

  /**
   * Every outcome keeps "at most one pending record per address", and ids and tokens unique:
   * the only write replaces the token's record by one with the same address, id and token.
   */
  lemma ResendKeepsOnePerEmail(pending: seq<PendingUser>, req: Request, draw: real, mailOk: bool, now: int)
    requires 0.0 <= draw < 1.0
    requires AtMostOnePendingPerEmail(pending) && PendingIdsUnique(pending) && TokensUnique(pending)
    ensures var o := ResendOutcome(pending, req, draw, mailOk, now);
      AtMostOnePendingPerEmail(o.pending) && PendingIdsUnique(o.pending) && TokensUnique(o.pending)
  {
    if Present(req.verificationToken) {
      var i := FindPendingByToken(pending, req.verificationToken.value);
      if i >= 0 {
        var q := Reissued(pending[i], OtpCode(draw), now);
        if !Throttled(pending[i], now) && PendingSaveOk(pending, q) {
          ReissueReplacesRecord(pending, req, draw, mailOk, now, i);
          var after := pending[i := q];
          assert forall j :: 0 <= j < |after| ==>
            after[j].email == pending[j].email && after[j].id == pending[j].id
            && after[j].verificationToken == pending[j].verificationToken;
        }
      }
    }
  }

  /** A second resend less than two minutes after one that stored a new code is refused. */
  lemma SecondResendRefused(pending: seq<PendingUser>, req: Request, draw: real, mailOk: bool, now: int,
                            draw2: real, mailOk2: bool, later: int, i: nat)
    requires 0.0 <= draw < 1.0 && 0.0 <= draw2 < 1.0
    requires Present(req.verificationToken) && TokensUnique(pending) && PendingIdsUnique(pending)
    requires i < |pending| && pending[i].verificationToken == req.verificationToken.value
    requires !Throttled(pending[i], now)
    requires PendingSaveOk(pending, Reissued(pending[i], OtpCode(draw), now))
    requires now <= later < now + ResendInterval
    ensures var o := ResendOutcome(pending, req, draw, mailOk, now);
      ResendOutcome(o.pending, req, draw2, mailOk2, later).reply.TooSoon?
  {
    ReissueReplacesRecord(pending, req, draw, mailOk, now, i);
    var after := pending[i := Reissued(pending[i], OtpCode(draw), now)];
    assert TokensUnique(after) by {
      forall a, b | 0 <= a < b < |after| ensures after[a].verificationToken != after[b].verificationToken {
        assert after[a].verificationToken == pending[a].verificationToken;
        assert after[b].verificationToken == pending[b].verificationToken;
      }
    }
    FoundByToken(after, req.verificationToken.value, i);
  }
}
