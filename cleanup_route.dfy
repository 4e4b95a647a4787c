/**
 * `/api/cleanup-pending-users`: `POST` sweeps the pending collection in three
 * successive deletions (registrations older than a day, codes expired more than
 * half an hour ago, records without a code or expiry) and reports the counts;
 * `GET` reports counts and the oldest and newest record without deleting anything.
 * The handler reads the clock several times; the model uses one instant `now`.
 */
module CleanupRoute {
  import opened Wrappers
  import opened Seqs
  import opened PendingUserModel
  import opened Store

  const HourMs: int := 60 * 60 * 1000
  const DayMs: int := 24 * HourMs
  const HalfHourMs: int := 30 * 60 * 1000
  const MinuteMs: int := 60 * 1000

  /** The filter `{ createdAt: { $lt: cutoff } }`. */
  function CreatedBefore(cutoff: int): PendingUser -> bool {
    (p: PendingUser) => p.createdAt < cutoff
  }

  /** The filter `{ otpExpires: { $lt: cutoff } }`: a record without an expiry does not match. */
  function ExpiresBefore(cutoff: int): PendingUser -> bool {
    (p: PendingUser) => p.otpExpires.Some? && p.otpExpires.value < cutoff
  }

  /** Pass 3's filter: no code, a null or empty code, or no expiry. */
  predicate Broken(p: PendingUser) {
    p.otp.None? || p.otp == Some("") || p.otpExpires.None?
  }

  /** Pass 1 matches registrations older than a day. */
  predicate TooOld(now: int, p: PendingUser) {
    CreatedBefore(now - DayMs)(p)
  }

  /** Pass 2 matches codes that expired more than half an hour ago. */
  predicate CodeLongExpired(now: int, p: PendingUser) {
    ExpiresBefore(now - HalfHourMs)(p)
  }

  /** A record no pass matches. */
  predicate Survives(now: int, p: PendingUser) {
    !TooOld(now, p) && !CodeLongExpired(now, p) && !Broken(p)
  }

  /** `createdAt >= now - 1h`. */
  predicate CreatedWithinHour(now: int, p: PendingUser) {
    p.createdAt >= now - HourMs
  }

  predicate CreatedWithinDay(now: int, p: PendingUser) {
    p.createdAt >= now - DayMs
  }

  datatype Report = Report(expiredByAge: nat, expiredByOtp: nat, brokenData: nat, total: nat, remaining: nat, recentCount: nat)

  datatype Sweep = Sweep(pending: seq<PendingUser>, report: Report)

  /** The collection after the first pass, after the second pass, and after the third. */
  function AfterAge(pending: seq<PendingUser>, now: int): seq<PendingUser> {
    Filter(pending, Not(CreatedBefore(now - DayMs)))
  }

  function AfterCode(pending: seq<PendingUser>, now: int): seq<PendingUser> {
    Filter(AfterAge(pending, now), Not(ExpiresBefore(now - HalfHourMs)))
  }

  function AfterBroken(pending: seq<PendingUser>, now: int): seq<PendingUser> {
    Filter(AfterCode(pending, now), Not(Broken))
  }

  /** The effect of `POST`: what is left and what the reply reports. */
  function CleanupOutcome(pending: seq<PendingUser>, now: int): Sweep {
    var p1 := AfterAge(pending, now);
    var p2 := AfterCode(pending, now);
    var p3 := AfterBroken(pending, now);
    var byAge := |pending| - |p1|;
    var byOtp := |p1| - |p2|;
    var broken := |p2| - |p3|;
    Sweep(p3, Report(byAge, byOtp, broken, byAge + byOtp + broken, |p3|, Count(p3, (p: PendingUser) => CreatedWithinHour(now, p))))
  }

  /** `POST`: three `deleteMany` calls, then two counts. */
  method Post(db: Database, now: int) returns (report: Report)
    requires db.Valid()
    modifies db
    ensures db.Valid()
    ensures var o := CleanupOutcome(old(db.pending), now);
      db.pending == o.pending && report == o.report
    ensures db.users == old(db.users) && db.campaigns == old(db.campaigns) && db.nextId == old(db.nextId)
  {
    var oneDayAgo := now - DayMs;
    var expiredByAge := db.DeleteManyPending(CreatedBefore(oneDayAgo));
    var thirtyMinutesAgo := now - HalfHourMs;
    var expiredByOtp := db.DeleteManyPending(ExpiresBefore(thirtyMinutesAgo));
    var brokenData := db.DeleteManyPending(Broken);
    var totalDeleted := expiredByAge + expiredByOtp + brokenData;
    var remainingCount := |db.pending|;
    var recentCount := Count(db.pending, (p: PendingUser) => CreatedWithinHour(now, p));
    report := Report(expiredByAge, expiredByOtp, brokenData, totalDeleted, remainingCount, recentCount);
  }

  // ----- Properties -----

  /** After the sweep no record is older than a day, none has a code expired over half an hour ago, and none is broken. */
  lemma SweepLeavesNoMatch(pending: seq<PendingUser>, now: int)
    ensures forall p :: p in CleanupOutcome(pending, now).pending ==>
      && p.createdAt >= now - DayMs
      && (p.otpExpires.Some? ==> p.otpExpires.value >= now - HalfHourMs)
      && p.otp.Some? && p.otp.value != "" && p.otpExpires.Some?
  {
  }

  /** What is left is exactly the records no pass matches, unchanged and in their original order. */
  lemma SweepKeepsTheRest(pending: seq<PendingUser>, now: int)
    ensures CleanupOutcome(pending, now).pending == Filter(pending, (p: PendingUser) => Survives(now, p))
    ensures IsSubsequence(CleanupOutcome(pending, now).pending, pending)
  {
    var both := (p: PendingUser) => !TooOld(now, p) && !CodeLongExpired(now, p);
    FilterFilter(pending, Not(CreatedBefore(now - DayMs)), Not(ExpiresBefore(now - HalfHourMs)), both);
    FilterFilter(pending, both, Not(Broken), (p: PendingUser) => Survives(now, p));
    FilterIsSubsequence(pending, (p: PendingUser) => Survives(now, p));
  }

  /** The sweep only deletes, so it keeps "at most one pending record per address" and ids unique. */
  lemma SweepKeepsOnePerEmail(pending: seq<PendingUser>, now: int)
    requires AtMostOnePendingPerEmail(pending) && PendingIdsUnique(pending)
    ensures var o := CleanupOutcome(pending, now);
      AtMostOnePendingPerEmail(o.pending) && PendingIdsUnique(o.pending)
  {
    SweepKeepsTheRest(pending, now);
    SubsequenceKeepsUnique(CleanupOutcome(pending, now).pending, pending);
  }

  /**
   * The passes run one after the other: the second counts only records the first left,
   * the third only records both left. The total is their sum, and what remains is the
   * initial number minus the total.
   */
  lemma SweepCounts(pending: seq<PendingUser>, now: int)
    ensures var r := CleanupOutcome(pending, now).report;
      && r.expiredByAge == Count(pending, (p: PendingUser) => TooOld(now, p))
      && r.expiredByOtp == Count(AfterAge(pending, now), (p: PendingUser) => CodeLongExpired(now, p))
      && r.brokenData == Count(AfterCode(pending, now), Broken)
      && r.total == r.expiredByAge + r.expiredByOtp + r.brokenData
      && r.remaining == |pending| - r.total
      && r.recentCount <= r.remaining
  {
    CountSplit(pending, Not(CreatedBefore(now - DayMs)), (p: PendingUser) => TooOld(now, p));
    CountSplit(AfterAge(pending, now), Not(ExpiresBefore(now - HalfHourMs)), (p: PendingUser) => CodeLongExpired(now, p));
    CountSplit(AfterCode(pending, now), Not(Broken), Broken);
  }

  /** A second sweep at the same instant deletes nothing. */
  lemma SweepIdempotent(pending: seq<PendingUser>, now: int)
    ensures var once := CleanupOutcome(pending, now).pending;
      && CleanupOutcome(once, now).pending == once
      && CleanupOutcome(once, now).report.total == 0
  {
    var once := CleanupOutcome(pending, now).pending;
    FilterAll(once, Not(CreatedBefore(now - DayMs)));
    FilterAll(once, Not(ExpiresBefore(now - HalfHourMs)));
    FilterAll(once, Not(Broken));
  }

  /** The record `GET` reports as oldest, in its reduced form. */
  datatype Oldest = Oldest(email: string, createdAt: int, ageInHours: int)

  datatype Newest = Newest(email: string, createdAt: int, ageInMinutes: int)

  datatype Stats = Stats(total: nat, last24h: nat, lastHour: nat, expiredOtp: nat, validOtp: nat,
                         oldest: Option<Oldest>, newest: Option<Newest>)

  /** The position of a record with the least `createdAt`; ties go to the earliest position. */
  function OldestIndex(ps: seq<PendingUser>): (i: nat)
    requires ps != []
    ensures i < |ps|
    ensures forall j :: 0 <= j < |ps| ==> ps[i].createdAt <= ps[j].createdAt
    decreases |ps|
  {
    if |ps| == 1 then 0
    else
      var k := OldestIndex(ps[1..]) + 1;
      if ps[0].createdAt <= ps[k].createdAt then 0 else k
  }

  /** The position of a record with the greatest `createdAt`; ties go to the earliest position. */
  function NewestIndex(ps: seq<PendingUser>): (i: nat)
    requires ps != []
    ensures i < |ps|
    ensures forall j :: 0 <= j < |ps| ==> ps[i].createdAt >= ps[j].createdAt
    decreases |ps|
  {
    if |ps| == 1 then 0
    else
      var k := NewestIndex(ps[1..]) + 1;
      if ps[0].createdAt >= ps[k].createdAt then 0 else k
  }

  predicate HasExpiry(p: PendingUser) { p.otpExpires.Some? }

  predicate ExpiredBefore(now: int, p: PendingUser) { p.otpExpires.Some? && p.otpExpires.value < now }

  predicate ValidAt(now: int, p: PendingUser) { p.otpExpires.Some? && p.otpExpires.value >= now }

  /** `GET`: reads the collection and changes nothing. Ages are rounded down, as `Math.floor` does for these non-negative divisors. */
  function GetStats(pending: seq<PendingUser>, now: int): Stats {
    Stats(|pending|,
      Count(pending, (p: PendingUser) => CreatedWithinDay(now, p)),
      Count(pending, (p: PendingUser) => CreatedWithinHour(now, p)),
      Count(pending, (p: PendingUser) => ExpiredBefore(now, p)),
      Count(pending, (p: PendingUser) => ValidAt(now, p)),
      if pending == [] then None
      else var o := pending[OldestIndex(pending)]; Some(Oldest(o.email, o.createdAt, (now - o.createdAt) / HourMs)),
      if pending == [] then None
      else var n := pending[NewestIndex(pending)]; Some(Newest(n.email, n.createdAt, (now - n.createdAt) / MinuteMs)))
  }

  /**
   * At a fixed instant every record with an expiry is either expired or valid, so
   * `expiredOtp + validOtp` is the number of records with an expiry; the hour count
   * never exceeds the day count, nor the day count the total.
   */
  lemma StatsCounts(pending: seq<PendingUser>, now: int)
    ensures var s := GetStats(pending, now);
      && s.expiredOtp + s.validOtp == Count(pending, HasExpiry)
      && s.lastHour <= s.last24h <= s.total
  {
    var expired := (p: PendingUser) => ExpiredBefore(now, p);
    var notExpired := (p: PendingUser) => !ExpiredBefore(now, p);
    FilterFilter(pending, HasExpiry, expired, expired);
    FilterFilter(pending, HasExpiry, notExpired, (p: PendingUser) => ValidAt(now, p));
    CountSplit(Filter(pending, HasExpiry), expired, notExpired);
    CountMonotone(pending, (p: PendingUser) => CreatedWithinHour(now, p), (p: PendingUser) => CreatedWithinDay(now, p));
  }

  /**
   * The oldest and the newest record are reported exactly when there is one; each is a stored
   * record, the oldest no younger than any record and the newest no older, and the reported
   * ages are the elapsed time rounded down to whole hours and whole minutes.
   */
  lemma StatsExtremes(pending: seq<PendingUser>, now: int)
    ensures var s := GetStats(pending, now);
      && (s.oldest.Some? <==> pending != []) && (s.newest.Some? <==> pending != [])
      && (s.oldest.Some? ==> forall j :: 0 <= j < |pending| ==> s.oldest.value.createdAt <= pending[j].createdAt)
      && (s.newest.Some? ==> forall j :: 0 <= j < |pending| ==> s.newest.value.createdAt >= pending[j].createdAt)
      && (s.oldest.Some? ==> s.oldest.value.ageInHours * HourMs <= now - s.oldest.value.createdAt < (s.oldest.value.ageInHours + 1) * HourMs)
      && (s.newest.Some? ==> s.newest.value.ageInMinutes * MinuteMs <= now - s.newest.value.createdAt < (s.newest.value.ageInMinutes + 1) * MinuteMs)
      && (s.oldest.Some? ==> exists j :: 0 <= j < |pending| && pending[j].email == s.oldest.value.email && pending[j].createdAt == s.oldest.value.createdAt)
      && (s.newest.Some? ==> exists j :: 0 <= j < |pending| && pending[j].email == s.newest.value.email && pending[j].createdAt == s.newest.value.createdAt)
  {
    if pending != [] {
      var o, n := OldestIndex(pending), NewestIndex(pending);
      assert pending[o].email == GetStats(pending, now).oldest.value.email;
      assert pending[n].email == GetStats(pending, now).newest.value.email;
    }
  }
}
