/**
 * `POST /api/register`: starts a registration. The handler refuses incomplete
 * requests and known addresses, replaces any earlier pending registration for
 * the address, stores a new one with a fresh code, and mails the code; when the
 * mail fails it removes the record again.
 *
 * The bcrypt hash is the function `hash`, the random token is `token`, the
 * random draw behind the code is `draw`, and `mailOk` says whether the mail
 * provider accepted the message.
 */
module RegisterRoute {
  import opened Wrappers
  import opened Text
  import opened Seqs
  import opened Http
  import opened UserModel
  import opened PendingUserModel
  import opened Store

  /** The JSON body; a field is `None` when the body lacks it. */
  datatype Request = Request(firstName: Option<string>, lastName: Option<string>, email: Option<string>, password: Option<string>)

  datatype Reply =
    | Rejected(status: Status, error: string)
    /** The 500 reply after a failed mail: `success`, `requiresVerification` and `emailSent` are all false. */
    | MailFailed
    /** The 200 reply: `requiresVerification` and `emailSent` are true, and the token is handed back. */
    | Started(verificationToken: string)
  {
    function StatusOf(): Status {
      match this
      case Rejected(s, _) => s
      case MailFailed => InternalError
      case Started(_) => Ok
    }

    predicate RequiresVerification() { Started? }
  }

  const MissingFields := "Alle Felder sind erforderlich"
  const EmailInUse := "E-Mail wird bereits verwendet"
  const Failed := "Registrierung fehlgeschlagen. Bitte versuche es erneut."

  /** What the handler leaves behind: the pending collection, the id source, and the reply. Users are never written. */
  datatype Outcome = Outcome(pending: seq<PendingUser>, nextId: nat, reply: Reply)

  predicate Complete(req: Request) {
    Present(req.email) && Present(req.password) && Present(req.firstName) && Present(req.lastName)
  }

  /**
   * The record the handler builds, before the code is issued: `new PendingUser({...})` with id `id`.
   * The address is lower-cased by the handler and then by the schema's setter, which also trims;
   * `EmailKeyOfLower` shows the first lower-casing changes nothing.
   */
  function Fresh(req: Request, hash: string -> string, token: string, id: nat, now: int): PendingUser
    requires Complete(req)
  {
    PendingUser(id, EmailKey(req.email.value), hash(req.password.value),
      Trim(req.firstName.value), Trim(req.lastName.value), None, None, token, now)
  }

  /** The record after `generateOTP()`. */
  function Issued(req: Request, hash: string -> string, token: string, draw: real, id: nat, now: int): PendingUser
    requires Complete(req) && 0.0 <= draw < 1.0
  {
    Reissued(Fresh(req, hash, token, id, now), OtpCode(draw), now)
  }

  /** The effect of the handler on the stores, as a function of the stores before it. */
  function RegisterOutcome(users: seq<UserRecord>, pending: seq<PendingUser>, nextId: nat, req: Request,
                           hash: string -> string, token: string, draw: real, mailOk: bool, now: int): Outcome
    requires 0.0 <= draw < 1.0
  {
    if !Complete(req) then Outcome(pending, nextId, Rejected(BadRequest, MissingFields))
    else
      var key := EmailKey(req.email.value);
      if FindUser(users, key) >= 0 then Outcome(pending, nextId, Rejected(Conflict, EmailInUse))
      else EnrollOutcome(DeletePendingByEmail(pending, key), nextId, req, hash, token, draw, mailOk, now)
  }

  /** The part after the earlier record for the address is gone: store the new record, then mail the code. */
  function EnrollOutcome(cleared: seq<PendingUser>, nextId: nat, req: Request,
                         hash: string -> string, token: string, draw: real, mailOk: bool, now: int): Outcome
    requires Complete(req) && 0.0 <= draw < 1.0
  {
    StoreOutcome(cleared, nextId + 1, Issued(req, hash, token, draw, nextId, now), mailOk)
  }

  /** Saving the built record `p`, then mailing its code; a failed mail deletes `p` again. */
  function StoreOutcome(cleared: seq<PendingUser>, nextId: nat, p: PendingUser, mailOk: bool): Outcome {
    if !PendingSaveOk(cleared, p) then Outcome(cleared, nextId, Rejected(InternalError, Failed))
    else if !mailOk then Outcome(DeletePendingById(cleared + [p], p.id), nextId, MailFailed)
    else Outcome(cleared + [p], nextId, Started(p.verificationToken))
  }

  /** The handler, step by step against the collections. */
  method Post(db: Database, req: Request, hash: string -> string, token: string, draw: real, mailOk: bool, now: int)
    returns (reply: Reply)
    requires db.Valid() && 0.0 <= draw < 1.0
    modifies db
    ensures db.Valid()
    ensures var o := RegisterOutcome(old(db.users), old(db.pending), old(db.nextId), req, hash, token, draw, mailOk, now);
      db.pending == o.pending && db.nextId == o.nextId && reply == o.reply
    ensures db.users == old(db.users) && db.campaigns == old(db.campaigns)
  {
    if !Present(req.email) || !Present(req.password) || !Present(req.firstName) || !Present(req.lastName) {
      return Rejected(BadRequest, MissingFields);
    }
    var lower := ToLower(req.email.value);
    EmailKeyOfLower(req.email.value);
    if FindUser(db.users, EmailKey(lower)) >= 0 {
      return Rejected(Conflict, EmailInUse);
    }
    reply := Replace(db, req, lower, hash, token, draw, mailOk, now);
  }

  /** Drops an earlier pending record for the address, then enrolls the new one. */
  method Replace(db: Database, req: Request, lower: string, hash: string -> string, token: string, draw: real, mailOk: bool, now: int)
    returns (reply: Reply)
    requires db.Valid() && Complete(req) && 0.0 <= draw < 1.0 && lower == ToLower(req.email.value)
    modifies db
    ensures db.Valid()
    ensures var o := EnrollOutcome(DeletePendingByEmail(old(db.pending), EmailKey(req.email.value)), old(db.nextId),
                                   req, hash, token, draw, mailOk, now);
      db.pending == o.pending && db.nextId == o.nextId && reply == o.reply
    ensures db.users == old(db.users) && db.campaigns == old(db.campaigns)
  {
    var key := EmailKey(lower);
    EmailKeyOfLower(req.email.value);
    if FindPendingByEmail(db.pending, key) >= 0 {
      db.DeleteOnePendingByEmail(key);
    }
    reply := Enroll(db, req, lower, hash, token, draw, mailOk, now);
  }

  /** Builds the new record, issues its code, saves it, and removes it again when the mail fails. */
  method Enroll(db: Database, req: Request, lower: string, hash: string -> string, token: string, draw: real, mailOk: bool, now: int)
    returns (reply: Reply)
    requires db.Valid() && Complete(req) && 0.0 <= draw < 1.0 && lower == ToLower(req.email.value)
    modifies db
    ensures db.Valid()
    ensures var o := EnrollOutcome(old(db.pending), old(db.nextId), req, hash, token, draw, mailOk, now);
      db.pending == o.pending && db.nextId == o.nextId && reply == o.reply
    ensures db.users == old(db.users) && db.campaigns == old(db.campaigns)
  {
    var id := db.NewId();
    var doc := Build(req, lower, hash, token, draw, id, now);
    assert forall i :: 0 <= i < |db.pending| ==> db.pending[i].id != id;
    reply := SaveAndMail(db, doc.Record(), mailOk);
  }

  /** `new PendingUser({...})` with the hashed password, followed by `generateOTP()`. */
  method Build(req: Request, lower: string, hash: string -> string, token: string, draw: real, id: nat, now: int)
    returns (doc: PendingUserDoc)
    requires Complete(req) && 0.0 <= draw < 1.0 && lower == ToLower(req.email.value)
    ensures fresh(doc)
    ensures doc.Record() == Issued(req, hash, token, draw, id, now)
  {
    var hashed := hash(req.password.value);
    doc := new PendingUserDoc(id, lower, hashed, req.firstName.value, req.lastName.value, token, now);
    var otp := doc.GenerateOtp(draw, now);
    EmailKeyOfLower(req.email.value);
  }

  /** Saves `p`, which carries an id not yet stored, and deletes it again when the mail fails. */
  method SaveAndMail(db: Database, p: PendingUser, mailOk: bool) returns (reply: Reply)
    requires db.Valid() && p.id < db.nextId
    requires forall i :: 0 <= i < |db.pending| ==> db.pending[i].id != p.id
    modifies db
    ensures db.Valid()
    ensures var o := StoreOutcome(old(db.pending), old(db.nextId), p, mailOk);
      db.pending == o.pending && db.nextId == o.nextId && reply == o.reply
    ensures db.users == old(db.users) && db.campaigns == old(db.campaigns)
  {
    var saved := db.SavePending(p);
    if !saved {
      return Rejected(InternalError, Failed);
    }
    if !mailOk {
      db.DeleteOnePendingById(p.id);
      return MailFailed;
    }
    return Started(p.verificationToken);
  }

  // ----- Properties -----

  /** A request lacking any of the four fields is refused with 400, and nothing changes. */
  lemma IncompleteRefused(users: seq<UserRecord>, pending: seq<PendingUser>, nextId: nat, req: Request,
                          hash: string -> string, token: string, draw: real, mailOk: bool, now: int)
    requires 0.0 <= draw < 1.0
    requires !Present(req.email) || !Present(req.password) || !Present(req.firstName) || !Present(req.lastName)
    ensures RegisterOutcome(users, pending, nextId, req, hash, token, draw, mailOk, now)
         == Outcome(pending, nextId, Rejected(BadRequest, MissingFields))
  {
  }

  /** A complete request for an address some user holds, after lower-casing, gets 409; the pending store stays as it was. */
  lemma KnownAddressRefused(users: seq<UserRecord>, pending: seq<PendingUser>, nextId: nat, req: Request,
                            hash: string -> string, token: string, draw: real, mailOk: bool, now: int)
    requires 0.0 <= draw < 1.0 && Complete(req)
    requires EmailTaken(users, EmailKey(req.email.value))
    ensures var o := RegisterOutcome(users, pending, nextId, req, hash, token, draw, mailOk, now);
      o.reply == Rejected(Conflict, EmailInUse) && o.pending == pending && o.nextId == nextId
  {
  }

  /**
   * A successful registration stores, in place of any earlier pending record for
   * the address, one record keyed by the lower-cased address holding the hashed
   * password, the new token and a six-digit code valid until `now + OtpLifetime`;
   * the reply hands back that same token.
   */
  lemma StartedStoresRecord(users: seq<UserRecord>, pending: seq<PendingUser>, nextId: nat, req: Request,
                            hash: string -> string, token: string, draw: real, mailOk: bool, now: int)
    requires 0.0 <= draw < 1.0
    requires RegisterOutcome(users, pending, nextId, req, hash, token, draw, mailOk, now).reply.Started?
    ensures Complete(req) && mailOk && !EmailTaken(users, EmailKey(req.email.value))
    ensures var o := RegisterOutcome(users, pending, nextId, req, hash, token, draw, mailOk, now);
      && o.reply == Started(token) && o.reply.RequiresVerification()
      && o.pending == DeletePendingByEmail(pending, EmailKey(req.email.value)) + [o.pending[|o.pending| - 1]]
      && var p := o.pending[|o.pending| - 1];
         && p.email == EmailKey(req.email.value) && p.password == hash(req.password.value)
         && p.verificationToken == token && p.otp == Some(OtpCode(draw))
         && |p.otp.value| == 6 && AllDigits(p.otp.value)
         && p.otpExpires == Some(now + OtpLifetime) && p.createdAt == now
  {
    StartedOutcome(users, pending, nextId, req, hash, token, draw, mailOk, now);
    IssuedFields(req, hash, token, draw, nextId, now);
  }

  /** Only the saved-and-mailed path replies `Started`, and it appends the issued record to the cleared collection. */
  lemma StartedOutcome(users: seq<UserRecord>, pending: seq<PendingUser>, nextId: nat, req: Request,
                       hash: string -> string, token: string, draw: real, mailOk: bool, now: int)
    requires 0.0 <= draw < 1.0
    requires RegisterOutcome(users, pending, nextId, req, hash, token, draw, mailOk, now).reply.Started?
    ensures Complete(req) && mailOk && !EmailTaken(users, EmailKey(req.email.value))
    ensures RegisterOutcome(users, pending, nextId, req, hash, token, draw, mailOk, now)
         == Outcome(DeletePendingByEmail(pending, EmailKey(req.email.value)) + [Issued(req, hash, token, draw, nextId, now)],
                    nextId + 1, Started(token))
  {
    assert Complete(req);
    var key := EmailKey(req.email.value);
    assert FindUser(users, key) < 0;
    var cleared := DeletePendingByEmail(pending, key);
    var p := Issued(req, hash, token, draw, nextId, now);
    assert EnrollOutcome(cleared, nextId, req, hash, token, draw, mailOk, now) == Outcome(cleared + [p], nextId + 1, Started(token));
  }

  /** The issued record: the lower-cased address, the hashed password, the token and a six-digit code valid for `OtpLifetime`. */
  lemma IssuedFields(req: Request, hash: string -> string, token: string, draw: real, id: nat, now: int)
    requires Complete(req) && 0.0 <= draw < 1.0
    ensures var p := Issued(req, hash, token, draw, id, now);
      && p.email == EmailKey(req.email.value) && p.password == hash(req.password.value)
      && p.verificationToken == token && p.otp == Some(OtpCode(draw))
      && |p.otp.value| == 6 && AllDigits(p.otp.value)
      && p.otpExpires == Some(now + OtpLifetime) && p.createdAt == now
  {
  }

  /** A record stored with the fresh id is removed by `deleteOne({ _id })`, leaving the rest as they were. */
  lemma DeleteAppended(cleared: seq<PendingUser>, p: PendingUser)
    requires forall i :: 0 <= i < |cleared| ==> cleared[i].id != p.id
    ensures DeletePendingById(cleared + [p], p.id) == cleared
  {
    var f := (q: PendingUser) => q.id != p.id;
    FilterConcat(cleared, [p], f);
    FilterAll(cleared, f);
    assert Filter([p], f) == [];
  }

  /**
   * When the mail fails after the save, the reply is 500 without `requiresVerification`,
   * the new record is gone, and an earlier pending record for the address is gone too.
   */
  lemma MailFailureRollsBack(users: seq<UserRecord>, pending: seq<PendingUser>, nextId: nat, req: Request,
                             hash: string -> string, token: string, draw: real, now: int)
    requires 0.0 <= draw < 1.0 && Complete(req)
    requires forall i :: 0 <= i < |pending| ==> pending[i].id < nextId
    requires !EmailTaken(users, EmailKey(req.email.value))
    requires PendingSaveOk(DeletePendingByEmail(pending, EmailKey(req.email.value)),
                           Issued(req, hash, token, draw, nextId, now))
    ensures RegisterOutcome(users, pending, nextId, req, hash, token, draw, false, now)
         == Outcome(DeletePendingByEmail(pending, EmailKey(req.email.value)), nextId + 1, MailFailed)
    ensures MailFailed.StatusOf() == InternalError && !MailFailed.RequiresVerification()
  {
    var key := EmailKey(req.email.value);
    assert FindUser(users, key) < 0;
    var cleared := DeletePendingByEmail(pending, key);
    ClearedIdsBelow(pending, key, nextId);
    EnrollMailFailure(cleared, nextId, req, hash, token, draw, now);
  }

  /** After a failed mail the collection is what it was before the save. */
  lemma EnrollMailFailure(cleared: seq<PendingUser>, nextId: nat, req: Request,
                          hash: string -> string, token: string, draw: real, now: int)
    requires Complete(req) && 0.0 <= draw < 1.0
    requires forall i :: 0 <= i < |cleared| ==> cleared[i].id < nextId
    requires PendingSaveOk(cleared, Issued(req, hash, token, draw, nextId, now))
    ensures EnrollOutcome(cleared, nextId, req, hash, token, draw, false, now) == Outcome(cleared, nextId + 1, MailFailed)
  {
    DeleteAppended(cleared, Issued(req, hash, token, draw, nextId, now));
  }

  /** Deleting by address keeps every id below `nextId`. */
  lemma ClearedIdsBelow(pending: seq<PendingUser>, key: string, nextId: nat)
    requires forall i :: 0 <= i < |pending| ==> pending[i].id < nextId
    ensures forall j :: 0 <= j < |DeletePendingByEmail(pending, key)| ==> DeletePendingByEmail(pending, key)[j].id < nextId
  {
    var i := FindPendingByEmail(pending, key);
    if i >= 0 {
      var cleared := DeletePendingByEmail(pending, key);
      forall j | 0 <= j < |cleared| ensures cleared[j].id < nextId {
        assert cleared[j] == pending[if j < i then j else j + 1];
      }
    }
  }

  /** After the delete by address, no pending record carries the address, given that at most one did before. */
  lemma ClearedHasNoKey(pending: seq<PendingUser>, key: string)
    requires AtMostOnePendingPerEmail(pending)
    ensures forall j :: 0 <= j < |DeletePendingByEmail(pending, key)| ==> DeletePendingByEmail(pending, key)[j].email != key
  {
    var i := FindPendingByEmail(pending, key);
    if i >= 0 {
      var r := DeletePendingByEmail(pending, key);
      forall j | 0 <= j < |r| ensures r[j].email != key {
        var j' := if j < i then j else j + 1;
        assert r[j] == pending[j'];
        assert j' != i;
      }
    }
  }

  /** Appending a record whose address no stored record has keeps addresses and ids unique. */
  lemma AppendKeepsUnique(cleared: seq<PendingUser>, p: PendingUser)
    requires AtMostOnePendingPerEmail(cleared) && PendingIdsUnique(cleared)
    requires forall j :: 0 <= j < |cleared| ==> cleared[j].email != p.email && cleared[j].id != p.id
    ensures AtMostOnePendingPerEmail(cleared + [p]) && PendingIdsUnique(cleared + [p])
  {
  }

  /** Registration keeps "at most one pending record per address" (and unique ids below `nextId`). */
  lemma RegisterKeepsOnePerEmail(users: seq<UserRecord>, pending: seq<PendingUser>, nextId: nat, req: Request,
                                 hash: string -> string, token: string, draw: real, mailOk: bool, now: int)
    requires 0.0 <= draw < 1.0
    requires AtMostOnePendingPerEmail(pending) && PendingIdsUnique(pending)
    requires forall i :: 0 <= i < |pending| ==> pending[i].id < nextId
    ensures var o := RegisterOutcome(users, pending, nextId, req, hash, token, draw, mailOk, now);
      AtMostOnePendingPerEmail(o.pending) && PendingIdsUnique(o.pending)
  {
    if Complete(req) {
      var key := EmailKey(req.email.value);
      if FindUser(users, key) < 0 {
        var cleared := DeletePendingByEmail(pending, key);
        var p := Issued(req, hash, token, draw, nextId, now);
        var i := FindPendingByEmail(pending, key);
        if i >= 0 {
          RemoveAtKeepsUnique(pending, i);
        }
        ClearedIdsBelow(pending, key, nextId);
        ClearedHasNoKey(pending, key);
        AppendKeepsUnique(cleared, p);
        if PendingSaveOk(cleared, p) && !mailOk {
          AtMostOneAfterFilter(cleared + [p], (q: PendingUser) => q.id != nextId);
        }
      }
    }
  }
}
