/**
 * The three MongoDB collections the handlers read and write, held in memory:
 * users, pending registrations and campaigns, plus the source of fresh document
 * ids. Each method is one Mongoose call; the unique indexes refuse a write that
 * would duplicate an email, a verification token or an auction number.
 */
module Store {
  import opened Wrappers
  import opened Seqs
  import opened UserModel
  import opened PendingUserModel
  import opened CampaignModel

  /** The first user stored under `key`: `User.findOne({ email: key })`. */
  function FindUser(users: seq<UserRecord>, key: string): (i: int)
    ensures -1 <= i < |users|
    ensures i == -1 <==> forall j :: 0 <= j < |users| ==> users[j].email != key
    ensures i >= 0 ==> users[i].email == key && forall j :: 0 <= j < i ==> users[j].email != key
  {
    FirstIndex(users, (u: UserRecord) => u.email == key)
  }

  /** `PendingUser.findOne({ email: key })`. */
  function FindPendingByEmail(ps: seq<PendingUser>, key: string): (i: int)
    ensures -1 <= i < |ps|
    ensures i == -1 <==> forall j :: 0 <= j < |ps| ==> ps[j].email != key
    ensures i >= 0 ==> ps[i].email == key && forall j :: 0 <= j < i ==> ps[j].email != key
  {
    FirstIndex(ps, (p: PendingUser) => p.email == key)
  }

  /** `PendingUser.findOne({ verificationToken: token })`. */
  function FindPendingByToken(ps: seq<PendingUser>, token: string): (i: int)
    ensures -1 <= i < |ps|
    ensures i == -1 <==> forall j :: 0 <= j < |ps| ==> ps[j].verificationToken != token
    ensures i >= 0 ==> ps[i].verificationToken == token && forall j :: 0 <= j < i ==> ps[j].verificationToken != token
  {
    FirstIndex(ps, (p: PendingUser) => p.verificationToken == token)
  }

  /** `deleteOne({ _id: id })` on the pending collection. */
  function DeletePendingById(ps: seq<PendingUser>, id: nat): (r: seq<PendingUser>)
    ensures forall p :: p in r <==> p in ps && p.id != id
    ensures IsSubsequence(r, ps)
  {
    FilterIsSubsequence(ps, (p: PendingUser) => p.id != id);
    Filter(ps, (p: PendingUser) => p.id != id)
  }

  /** `deleteOne({ email: key })` on the pending collection. */
  function DeletePendingByEmail(ps: seq<PendingUser>, key: string): (r: seq<PendingUser>)
    ensures FindPendingByEmail(ps, key) == -1 ==> r == ps
    ensures FindPendingByEmail(ps, key) >= 0 ==> r == RemoveAt(ps, FindPendingByEmail(ps, key))
  {
    var i := FindPendingByEmail(ps, key);
    if i == -1 then ps else RemoveAt(ps, i)
  }

  /**
   * The delete by address, when the `i`th record is the first carrying `key`: exactly that
   * record goes, the others keep their order, and the multiset loses that one record. Under
   * the one-record-per-address invariant no record with `key` is left.
   */
  lemma DeleteByEmailFirstMatch(ps: seq<PendingUser>, key: string, i: nat)
    requires i < |ps| && ps[i].email == key
    requires forall j :: 0 <= j < i ==> ps[j].email != key
    ensures DeletePendingByEmail(ps, key) == ps[..i] + ps[i + 1..]
    ensures multiset(DeletePendingByEmail(ps, key)) + multiset{ps[i]} == multiset(ps)
    ensures AtMostOnePendingPerEmail(ps) ==>
      forall j :: 0 <= j < |DeletePendingByEmail(ps, key)| ==> DeletePendingByEmail(ps, key)[j].email != key
  {
    assert FindPendingByEmail(ps, key) == i;
    RemoveAtMultiset(ps, i);
    if AtMostOnePendingPerEmail(ps) {
      var r := RemoveAt(ps, i);
      forall j | 0 <= j < |r| ensures r[j].email != key {
        if j < i { assert r[j] == ps[j]; } else { assert r[j] == ps[j + 1]; }
      }
    }
  }

  /** `save()` of a document already in the collection: its stored copy is replaced. */
  function ReplacePending(ps: seq<PendingUser>, p: PendingUser): (r: seq<PendingUser>)
    ensures |r| == |ps|
    ensures forall i :: 0 <= i < |ps| ==> r[i] == (if ps[i].id == p.id then p else ps[i])
  {
    ReplaceKeyed(ps, p, (q: PendingUser) => q.id)
  }

  function ReplaceUser(users: seq<UserRecord>, u: UserRecord): (r: seq<UserRecord>)
    ensures |r| == |users|
    ensures forall i :: 0 <= i < |users| ==> r[i] == (if users[i].id == u.id then u else users[i])
  {
    ReplaceKeyed(users, u, (v: UserRecord) => v.id)
  }

  /** With unique tokens, the lookup by token finds the one record carrying it. */
  lemma FoundByToken(ps: seq<PendingUser>, token: string, i: nat)
    requires i < |ps| && ps[i].verificationToken == token
    requires TokensUnique(ps)
    ensures FindPendingByToken(ps, token) == i
  {
  }

  /** With unique ids, saving a stored record replaces exactly its own position. */
  lemma ReplaceAtIndex(ps: seq<PendingUser>, i: nat, p: PendingUser)
    requires PendingIdsUnique(ps) && i < |ps| && ps[i].id == p.id
    ensures ReplacePending(ps, p) == ps[i := p]
  {
    forall j | 0 <= j < |ps| && j != i ensures ps[j].id != ps[i].id {
      if j < i { assert ps[j].id != ps[i].id; } else { assert ps[i].id != ps[j].id; }
    }
    ReplaceKeyedAtIndex(ps, i, p, (q: PendingUser) => q.id);
  }

  /** With unique ids, saving a stored user replaces exactly its own position. */
  lemma ReplaceUserAtIndex(users: seq<UserRecord>, i: nat, u: UserRecord)
    requires UserIdsUnique(users) && i < |users| && users[i].id == u.id
    ensures ReplaceUser(users, u) == users[i := u]
  {
    forall j | 0 <= j < |users| && j != i ensures users[j].id != users[i].id {
      if j < i { assert users[j].id != users[i].id; } else { assert users[i].id != users[j].id; }
    }
    ReplaceKeyedAtIndex(users, i, u, (v: UserRecord) => v.id);
  }

  /** No two stored records share `email`: the invariant the registration flow maintains for pending records. */
  predicate AtMostOnePendingPerEmail(ps: seq<PendingUser>) {
    forall i, j :: 0 <= i < j < |ps| ==> ps[i].email != ps[j].email
  }

  predicate TokensUnique(ps: seq<PendingUser>) {
    forall i, j :: 0 <= i < j < |ps| ==> ps[i].verificationToken != ps[j].verificationToken
  }

  predicate PendingIdsUnique(ps: seq<PendingUser>) {
    forall i, j :: 0 <= i < j < |ps| ==> ps[i].id != ps[j].id
  }

  predicate UserEmailsUnique(users: seq<UserRecord>) {
    forall i, j :: 0 <= i < j < |users| ==> users[i].email != users[j].email
  }

  predicate UserIdsUnique(users: seq<UserRecord>) {
    forall i, j :: 0 <= i < j < |users| ==> users[i].id != users[j].id
  }

  /** The `required` validators of the pending schema, and its unique index on `verificationToken`. */
  predicate PendingSaveOk(ps: seq<PendingUser>, p: PendingUser) {
    && p.email != "" && p.password != "" && p.firstName != "" && p.lastName != ""
    && p.otp.Some? && p.otp.value != "" && p.otpExpires.Some? && p.verificationToken != ""
    && forall i :: 0 <= i < |ps| && ps[i].id != p.id ==> ps[i].verificationToken != p.verificationToken
  }

  /** Deleting records keeps every email at most once. */
  lemma AtMostOneAfterFilter(ps: seq<PendingUser>, f: PendingUser -> bool)
    requires AtMostOnePendingPerEmail(ps) && PendingIdsUnique(ps)
    ensures AtMostOnePendingPerEmail(Filter(ps, f)) && PendingIdsUnique(Filter(ps, f))
  {
    FilterIsSubsequence(ps, f);
    SubsequenceKeepsUnique(Filter(ps, f), ps);
  }

  /** Deleting by id keeps every email and every id at most once. */
  lemma AtMostOneAfterDelete(ps: seq<PendingUser>, id: nat)
    requires AtMostOnePendingPerEmail(ps) && PendingIdsUnique(ps)
    ensures AtMostOnePendingPerEmail(DeletePendingById(ps, id)) && PendingIdsUnique(DeletePendingById(ps, id))
  {
    AtMostOneAfterFilter(ps, (p: PendingUser) => p.id != id);
  }

  /** Uniqueness of emails and ids survives taking a subsequence. */
  lemma {:induction false} SubsequenceKeepsUnique(a: seq<PendingUser>, b: seq<PendingUser>)
    requires IsSubsequence(a, b)
    requires AtMostOnePendingPerEmail(b) && PendingIdsUnique(b)
    ensures AtMostOnePendingPerEmail(a) && PendingIdsUnique(a)
    ensures forall x :: x in a ==> x in b
    decreases |b|
  {
    if a != [] && b != [] {
      if a[0] == b[0] && IsSubsequence(a[1..], b[1..]) {
        SubsequenceKeepsUnique(a[1..], b[1..]);
        forall j | 0 < j < |a| ensures a[0].email != a[j].email && a[0].id != a[j].id {
          assert a[j] in a[1..];
          var k :| 0 <= k < |b[1..]| && b[1..][k] == a[j];
          assert b[k + 1] == a[j];
        }
        forall x | x in a ensures x in b {
          if x != a[0] { assert x in a[1..]; }
        }
      } else {
        SubsequenceKeepsUnique(a, b[1..]);
      }
    }
  }

  /** Removing one record keeps emails and ids unique. */
  lemma RemoveAtKeepsUnique(ps: seq<PendingUser>, i: nat)
    requires i < |ps|
    requires AtMostOnePendingPerEmail(ps) && PendingIdsUnique(ps)
    ensures AtMostOnePendingPerEmail(RemoveAt(ps, i)) && PendingIdsUnique(RemoveAt(ps, i))
  {
    var r := RemoveAt(ps, i);
    forall a, b | 0 <= a < b < |r| ensures r[a].email != r[b].email && r[a].id != r[b].id {
      var a' := if a < i then a else a + 1;
      var b' := if b < i then b else b + 1;
      assert r[a] == ps[a'] && r[b] == ps[b'];
    }
  }

  /** The collections and the id source. */
  class Database {
    var users: seq<UserRecord>
    var pending: seq<PendingUser>
    var campaigns: seq<Campaign>
    var nextId: nat

    /** Ids are below `nextId` and never repeat; the unique indexes hold. */
    ghost predicate Valid()
      reads this
    {
      && (forall i :: 0 <= i < |users| ==> users[i].id < nextId)
      && (forall i :: 0 <= i < |pending| ==> pending[i].id < nextId)
      && UserIdsUnique(users) && UserEmailsUnique(users)
      && PendingIdsUnique(pending) && TokensUnique(pending)
      && CampaignKeysOk(campaigns, nextId)
    }

    constructor ()
      ensures Valid() && users == [] && pending == [] && campaigns == [] && nextId == 0
    {
      users, pending, campaigns, nextId := [], [], [], 0;
    }

    /** A fresh `_id`, as `new Model(...)` assigns one. */
    method NewId() returns (id: nat)
      requires Valid()
      modifies this
      ensures Valid()
      ensures id == old(nextId) && nextId == id + 1
      ensures users == old(users) && pending == old(pending) && campaigns == old(campaigns)
    {
      id := nextId;
      nextId := nextId + 1;
    }

    /** `PendingUser.deleteOne({ email: key })`. */
    method DeleteOnePendingByEmail(key: string)
      requires Valid()
      modifies this
      ensures Valid()
      ensures pending == DeletePendingByEmail(old(pending), key)
      ensures users == old(users) && campaigns == old(campaigns) && nextId == old(nextId)
    {
      var i := FindPendingByEmail(pending, key);
      if i >= 0 {
        ghost var ps := pending;
        pending := RemoveAt(pending, i);
        forall a, b | 0 <= a < b < |pending|
          ensures pending[a].id != pending[b].id && pending[a].verificationToken != pending[b].verificationToken
        {
          var a' := if a < i then a else a + 1;
          var b' := if b < i then b else b + 1;
          assert pending[a] == ps[a'] && pending[b] == ps[b'];
        }
      }
    }

    /** `PendingUser.deleteOne({ _id: id })`. */
    method DeleteOnePendingById(id: nat)
      requires Valid()
      modifies this
      ensures Valid()
      ensures pending == DeletePendingById(old(pending), id)
      ensures users == old(users) && campaigns == old(campaigns) && nextId == old(nextId)
    {
      ghost var ps := pending;
      pending := DeletePendingById(pending, id);
      FilterIsSubsequence(ps, (p: PendingUser) => p.id != id);
      SubsequenceKeepsTokens(pending, ps);
      forall i | 0 <= i < |pending| ensures pending[i].id < nextId {
        assert pending[i] in ps;
      }
    }

    /** `save()` of a pending document: insert when new, replace when stored; refused by a validator or the token index. */
    method SavePending(p: PendingUser) returns (ok: bool)
      requires Valid() && p.id < nextId
      modifies this
      ensures Valid()
      ensures ok == PendingSaveOk(old(pending), p)
      ensures pending == (if !ok then old(pending)
                          else if exists i :: 0 <= i < |old(pending)| && old(pending)[i].id == p.id
                          then ReplacePending(old(pending), p)
                          else old(pending) + [p])
      ensures users == old(users) && campaigns == old(campaigns) && nextId == old(nextId)
    {
      ok := PendingSaveOk(pending, p);
      if ok {
        if exists i :: 0 <= i < |pending| && pending[i].id == p.id {
          pending := ReplacePending(pending, p);
        } else {
          pending := pending + [p];
        }
      }
    }

    /** `save()` of a user document: insert when new, replace when stored; the pre-save hook runs first. */
    method SaveUser(u: UserRecord) returns (ok: bool)
      requires Valid() && u.id < nextId
      modifies this
      ensures Valid()
      ensures ok == SaveOk(old(users), PreSaved(u))
      ensures users == (if !ok then old(users)
                        else if exists i :: 0 <= i < |old(users)| && old(users)[i].id == u.id
                        then ReplaceUser(old(users), PreSaved(u))
                        else old(users) + [PreSaved(u)])
      ensures pending == old(pending) && campaigns == old(campaigns) && nextId == old(nextId)
    {
      var saved := PreSaved(u);
      ok := SaveOk(users, saved);
      if ok {
        if exists i :: 0 <= i < |users| && users[i].id == u.id {
          users := ReplaceUser(users, saved);
        } else {
          users := users + [saved];
        }
      }
    }

    /** `deleteMany(filter)` on the pending collection; reports how many records went. */
    method DeleteManyPending(matches: PendingUser -> bool) returns (deletedCount: nat)
      requires Valid()
      modifies this
      ensures Valid()
      ensures pending == Filter(old(pending), Not(matches))
      ensures deletedCount == |old(pending)| - |pending|
      ensures users == old(users) && campaigns == old(campaigns) && nextId == old(nextId)
    {
      var ps := pending;
      pending := Filter(pending, Not(matches));
      FilterIsSubsequence(ps, Not(matches));
      SubsequenceKeepsTokens(pending, ps);
      forall i | 0 <= i < |pending| ensures pending[i].id < nextId {
        assert pending[i] in ps;
      }
      deletedCount := |ps| - |pending|;
    }

    /** `save()` of a new campaign; refused by a schema validator or the auction-number index. */
    method InsertCampaign(c: Campaign) returns (ok: bool)
      requires Valid() && c.id < nextId
      requires forall i :: 0 <= i < |campaigns| ==> campaigns[i].id != c.id
      modifies this
      ensures Valid()
      ensures ok == (SchemaErrors(c) == [] && AuctionNumberFree(old(campaigns), c.auctionNumber))
      ensures campaigns == if ok then old(campaigns) + [c] else old(campaigns)
      ensures users == old(users) && pending == old(pending) && nextId == old(nextId)
    {
      var valid := SchemaErrors(c) == [];
      ok := valid && AuctionNumberFree(campaigns, c.auctionNumber);
      if ok {
        AppendCampaignKeepsKeys(campaigns, c, nextId);
        campaigns := campaigns + [c];
      }
    }
  }

  /** No stored campaign carries `n`: the unique index on `auctionNumber` admits it. */
  predicate AuctionNumberFree(cs: seq<Campaign>, n: string) {
    forall i :: 0 <= i < |cs| ==> cs[i].auctionNumber != n
  }

  predicate CampaignKeysOk(cs: seq<Campaign>, nextId: nat) {
    && (forall i :: 0 <= i < |cs| ==> cs[i].id < nextId)
    && (forall i, j :: 0 <= i < j < |cs| ==> cs[i].id != cs[j].id)
    && (forall i, j :: 0 <= i < j < |cs| ==> cs[i].auctionNumber != cs[j].auctionNumber)
  }

  /** Appending a campaign with the newest id and a free auction number keeps the keys unique. */
  lemma AppendCampaignKeepsKeys(cs: seq<Campaign>, c: Campaign, nextId: nat)
    requires CampaignKeysOk(cs, nextId) && c.id < nextId && AuctionNumberFree(cs, c.auctionNumber)
    requires forall i :: 0 <= i < |cs| ==> cs[i].id != c.id
    ensures CampaignKeysOk(cs + [c], nextId)
  {
  }

  /** Ids and tokens stay unique in a subsequence. */
  lemma {:induction false} SubsequenceKeepsTokens(a: seq<PendingUser>, b: seq<PendingUser>)
    requires IsSubsequence(a, b)
    requires PendingIdsUnique(b) && TokensUnique(b)
    ensures PendingIdsUnique(a) && TokensUnique(a)
    ensures forall x :: x in a ==> x in b
    decreases |b|
  {
    if a != [] && b != [] {
      if a[0] == b[0] && IsSubsequence(a[1..], b[1..]) {
        SubsequenceKeepsTokens(a[1..], b[1..]);
        forall j | 0 < j < |a| ensures a[0].verificationToken != a[j].verificationToken && a[0].id != a[j].id {
          assert a[j] in a[1..];
          var k :| 0 <= k < |b[1..]| && b[1..][k] == a[j];
          assert b[k + 1] == a[j];
        }
        forall x | x in a ensures x in b {
          if x != a[0] { assert x in a[1..]; }
        }
      } else {
        SubsequenceKeepsTokens(a, b[1..]);
      }
    }
  }
}
