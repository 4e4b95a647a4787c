/**
 * `POST /api/verify-otp`: confirms a pending registration. A correct, unexpired
 * code turns the pending record into a `User` (role 'user', not yet approved,
 * active) and removes the pending record. A wrong or expired code changes
 * nothing; there is no attempt counter.
 *
 * The confirmation mail sent after the user is created is left out of the
 * model: its failure is caught and ignored, so it cannot change the reply or the stores.
 */
module VerifyOtpRoute {
  import opened Wrappers
  import opened Seqs
  import opened Text
  import opened Http
  import opened Permissions
  import opened UserModel
  import opened PendingUserModel
  import opened Store

  datatype Request = Request(verificationToken: Option<string>, otp: Option<string>)

  datatype Reply =
    | Rejected(status: Status, error: string)
    /** The 200 reply: the account exists now and awaits approval. */
    | Verified
  {
    function StatusOf(): Status {
      match this
      case Rejected(s, _) => s
      case Verified => Ok
    }
  }

  const MissingInput := "Verification-Token und OTP sind erforderlich"
  const UnknownToken := "Ungültiger oder abgelaufener Verifizierungslink"
  const CodeExpired := "Der Code ist abgelaufen. Bitte fordere einen neuen Code an."
  const WrongCode := "Ungültiger Code. Bitte prüfe deine Eingabe."
  const EmailInUse := "E-Mail wird bereits verwendet"
  const Failed := "Verifizierung fehlgeschlagen"

  datatype Outcome = Outcome(users: seq<UserRecord>, pending: seq<PendingUser>, nextId: nat, reply: Reply)

  /** The user built from a confirmed pending record: `new User({...})` with role 'user', approved false, isActive true. */
  function Promoted(p: PendingUser, id: nat): UserRecord {
    NewUser(id, p.email, p.password, p.firstName, p.lastName, Some(RoleUser), Some(false), Some(true), None)
  }

  /** The effect of the handler on the stores, as a function of the stores before it. */
  function VerifyOutcome(users: seq<UserRecord>, pending: seq<PendingUser>, nextId: nat, req: Request, now: int): Outcome {
    if !Present(req.verificationToken) || !Present(req.otp) then
      Outcome(users, pending, nextId, Rejected(BadRequest, MissingInput))
    else
      var i := FindPendingByToken(pending, req.verificationToken.value);
      if i < 0 then Outcome(users, pending, nextId, Rejected(NotFound, UnknownToken))
      else
        var p := pending[i];
        if !VerifyOtp(p, req.otp.value, now) then
          if IsOtpExpired(p, now) then Outcome(users, pending, nextId, Rejected(Gone, CodeExpired))
          else Outcome(users, pending, nextId, Rejected(BadRequest, WrongCode))
        else PromoteOutcome(users, pending, nextId, p)
  }

  /** The part after the code verified: refuse a known address, else create the user and drop the pending record. */
  function PromoteOutcome(users: seq<UserRecord>, pending: seq<PendingUser>, nextId: nat, p: PendingUser): Outcome {
    if FindUser(users, EmailKey(p.email)) >= 0 then
      Outcome(users, DeletePendingById(pending, p.id), nextId, Rejected(Conflict, EmailInUse))
    else
      var u := PreSaved(Promoted(p, nextId));
      if !SaveOk(users, u) then Outcome(users, pending, nextId + 1, Rejected(InternalError, Failed))
      else Outcome(users + [u], DeletePendingById(pending, p.id), nextId + 1, Verified)
  }

  /** The handler, step by step against the collections. */
  method Post(db: Database, req: Request, now: int) returns (reply: Reply)
    requires db.Valid()
    modifies db
    ensures db.Valid()
    ensures var o := VerifyOutcome(old(db.users), old(db.pending), old(db.nextId), req, now);
      db.users == o.users && db.pending == o.pending && db.nextId == o.nextId && reply == o.reply
    ensures db.campaigns == old(db.campaigns)
  {
    if !Present(req.verificationToken) || !Present(req.otp) {
      return Rejected(BadRequest, MissingInput);
    }
    var i := FindPendingByToken(db.pending, req.verificationToken.value);
    if i < 0 {
      return Rejected(NotFound, UnknownToken);
    }
    var p := db.pending[i];
    if !VerifyOtp(p, req.otp.value, now) {
      if IsOtpExpired(p, now) {
        return Rejected(Gone, CodeExpired);
      }
      return Rejected(BadRequest, WrongCode);
    }
    reply := Promote(db, p);
  }

  /** Creates the user from the confirmed record `p` and removes `p`; refuses an address that already has a user. */
  method Promote(db: Database, p: PendingUser) returns (reply: Reply)
    requires db.Valid()
    modifies db
    ensures db.Valid()
    ensures var o := PromoteOutcome(old(db.users), old(db.pending), old(db.nextId), p);
      db.users == o.users && db.pending == o.pending && db.nextId == o.nextId && reply == o.reply
    ensures db.campaigns == old(db.campaigns)
  {
    if FindUser(db.users, EmailKey(p.email)) >= 0 {
      db.DeleteOnePendingById(p.id);
      return Rejected(Conflict, EmailInUse);
    }
    var id := db.NewId();
    var doc := new UserDoc(Promoted(p, id));
    FreshUserIdNotStored(db.users, id);
    var saved := db.SaveUser(doc.Record());
    if !saved {
      return Rejected(InternalError, Failed);
    }
    db.DeleteOnePendingById(p.id);
    return Verified;
  }

  /** An id no stored user has is not stored. */
  lemma FreshUserIdNotStored(users: seq<UserRecord>, id: nat)
    requires forall i :: 0 <= i < |users| ==> users[i].id != id
    ensures !(exists i :: 0 <= i < |users| && users[i].id == id)
  {
  }

  // ----- Properties -----

  /** Without a token or a code the reply is 400 and nothing changes. */
  lemma MissingInputRefused(users: seq<UserRecord>, pending: seq<PendingUser>, nextId: nat, req: Request, now: int)
    requires !Present(req.verificationToken) || !Present(req.otp)
    ensures VerifyOutcome(users, pending, nextId, req, now) == Outcome(users, pending, nextId, Rejected(BadRequest, MissingInput))
  {
  }

  /** A token no pending record carries gives 404 and nothing changes. */
  lemma UnknownTokenRefused(users: seq<UserRecord>, pending: seq<PendingUser>, nextId: nat, req: Request, now: int)
    requires Present(req.verificationToken) && Present(req.otp)
    requires forall j :: 0 <= j < |pending| ==> pending[j].verificationToken != req.verificationToken.value
    ensures VerifyOutcome(users, pending, nextId, req, now) == Outcome(users, pending, nextId, Rejected(NotFound, UnknownToken))
  {
  }

  /**
   * A code that does not verify gives 410 when the stored code has expired and 400
   * otherwise; the stores are left exactly as they were, so the same record can be tried again.
   */
  lemma FailedCodeKeepsRecord(users: seq<UserRecord>, pending: seq<PendingUser>, nextId: nat, req: Request, now: int, i: nat)
    requires Present(req.verificationToken) && Present(req.otp)
    requires i < |pending| && pending[i].verificationToken == req.verificationToken.value
    requires TokensUnique(pending)
    requires !VerifyOtp(pending[i], req.otp.value, now)
    ensures var o := VerifyOutcome(users, pending, nextId, req, now);
      && o.users == users && o.pending == pending && o.nextId == nextId
      && o.reply == (if IsOtpExpired(pending[i], now) then Rejected(Gone, CodeExpired) else Rejected(BadRequest, WrongCode))
  {
    FoundByToken(pending, req.verificationToken.value, i);
  }

  /** A valid code for an address that already has a user removes the pending record and gives 409; users are untouched. */
  lemma ValidCodeForKnownAddress(users: seq<UserRecord>, pending: seq<PendingUser>, nextId: nat, req: Request, now: int, i: nat)
    requires Present(req.verificationToken) && Present(req.otp)
    requires i < |pending| && pending[i].verificationToken == req.verificationToken.value
    requires TokensUnique(pending)
    requires VerifyOtp(pending[i], req.otp.value, now)
    requires EmailTaken(users, EmailKey(pending[i].email))
    ensures var o := VerifyOutcome(users, pending, nextId, req, now);
      && o.users == users && o.reply == Rejected(Conflict, EmailInUse)
      && o.pending == DeletePendingById(pending, pending[i].id) && pending[i] !in o.pending
  {
    FoundByToken(pending, req.verificationToken.value, i);
  }

  /**
   * On success the stored code matched and had not expired, exactly one user is added
   * (the pending names, address and already-hashed password, role 'user',
   * approved false, isActive true, no permission), and the pending record is gone.
   */
  lemma SuccessPromotes(users: seq<UserRecord>, pending: seq<PendingUser>, nextId: nat, req: Request, now: int)
    requires VerifyOutcome(users, pending, nextId, req, now).reply == Verified
    ensures Present(req.verificationToken) && Present(req.otp)
    ensures var i := FindPendingByToken(pending, req.verificationToken.value);
      && 0 <= i < |pending|
      && pending[i].otp == Some(req.otp.value) && !IsOtpExpired(pending[i], now)
    ensures var i := FindPendingByToken(pending, req.verificationToken.value);
      var o := VerifyOutcome(users, pending, nextId, req, now);
      && 0 <= i < |pending|
      && |o.users| == |users| + 1 && o.users[..|users|] == users
      && PromotedFrom(o.users[|users|], pending[i], nextId)
      && o.pending == DeletePendingById(pending, pending[i].id) && pending[i] !in o.pending
  {
    var i := FindPendingByToken(pending, req.verificationToken.value);
    VerifiedIsNotExpired(pending[i], req.otp.value, now);
  }

  /** `u` is the account made from `p`: same address, hash and names, role 'user', not approved, active, no permission. */
  predicate PromotedFrom(u: UserRecord, p: PendingUser, id: nat) {
    && u.id == id && u.email == EmailKey(p.email) && u.password == p.password
    && u.firstName == Trim(p.firstName) && u.lastName == Trim(p.lastName)
    && u.role == Some(RoleUser) && u.approved == Some(false) && u.isActive == Some(true)
    && u.permissions == Some(DefaultPermissions) && u.lastLogin.None?
  }

  /** The promotion step leaves the pending records as they were or with one id deleted. */
  lemma PromoteKeepsOnePerEmail(users: seq<UserRecord>, pending: seq<PendingUser>, nextId: nat, p: PendingUser)
    requires AtMostOnePendingPerEmail(pending) && PendingIdsUnique(pending)
    ensures var o := PromoteOutcome(users, pending, nextId, p);
      AtMostOnePendingPerEmail(o.pending) && PendingIdsUnique(o.pending)
  {
    var o := PromoteOutcome(users, pending, nextId, p);
    if FindUser(users, EmailKey(p.email)) < 0 && !SaveOk(users, PreSaved(Promoted(p, nextId))) {
      assert o.pending == pending;
    } else {
      assert o.pending == DeletePendingById(pending, p.id);
      AtMostOneAfterDelete(pending, p.id);
    }
  }

  /** Every handler outcome keeps "at most one pending record per address": it only ever deletes. */
  lemma VerifyKeepsOnePerEmail(users: seq<UserRecord>, pending: seq<PendingUser>, nextId: nat, req: Request, now: int)
    requires AtMostOnePendingPerEmail(pending) && PendingIdsUnique(pending)
    ensures var o := VerifyOutcome(users, pending, nextId, req, now);
      AtMostOnePendingPerEmail(o.pending) && PendingIdsUnique(o.pending)
  {
    if Present(req.verificationToken) && Present(req.otp) {
      var i := FindPendingByToken(pending, req.verificationToken.value);
      if i >= 0 {
        PromoteKeepsOnePerEmail(users, pending, nextId, pending[i]);
      }
    }
  }
}
