/**
 * A registration that has not been confirmed yet: the `PendingUser` document,
 * its one-time code (OTP) and the code's expiry. Times are milliseconds since the epoch.
 */
module PendingUserModel {
  import opened Wrappers
  import opened Text

  /** A code stays valid for 15 minutes after it is issued. */
  const OtpLifetime: int := 15 * 60 * 1000

  /**
   * A stored pending registration. `otp` and `otpExpires` are optional because
   * a stored document may lack them (the cleanup sweep looks for such records).
   */
  datatype PendingUser = PendingUser(
    id: nat,
    email: string,
    password: string,
    firstName: string,
    lastName: string,
    otp: Option<string>,
    otpExpires: Option<int>,
    verificationToken: string,
    createdAt: int)

  /** `Math.floor(100000 + Math.random() * 900000)` for a draw `draw` of `Math.random()`. */
  function OtpNumber(draw: real): (n: int)
    requires 0.0 <= draw < 1.0
    ensures 100000 <= n <= 999999
  {
    (100000.0 + draw * 900000.0).Floor
  }

  /** The code `generateOTP` issues: the number above in decimal, always six digits. */
  function OtpCode(draw: real): (code: string)
    requires 0.0 <= draw < 1.0
    ensures |code| == 6 && AllDigits(code)
    ensures DecimalValue(code) == OtpNumber(draw)
  {
    var n := OtpNumber(draw);
    DecimalRoundTrip(n);
    assert Pow10(5) == 100000 && Pow10(6) == 1000000;
    DecimalLength(n, 6);
    DecimalString(n)
  }

  /** The record after a code is issued at `now`: only `otp` and `otpExpires` differ. */
  function Reissued(u: PendingUser, code: string, now: int): PendingUser {
    u.(otp := Some(code), otpExpires := Some(now + OtpLifetime))
  }

  /** `verifyOTP(input)` at time `now`. */
  function VerifyOtp(u: PendingUser, input: string, now: int): (ok: bool)
    ensures ok <==> u.otp == Some(input) && input != "" && u.otpExpires.Some? && now <= u.otpExpires.value
  {
    if u.otp.None? || u.otp.value == "" || u.otpExpires.None? then false
    else if now > u.otpExpires.value then false
    else u.otp.value == input
  }

  /** `isOTPExpired()` at time `now`. */
  function IsOtpExpired(u: PendingUser, now: int): (expired: bool)
    ensures expired <==> u.otpExpires.None? || now > u.otpExpires.value
  {
    if u.otpExpires.None? then true else now > u.otpExpires.value
  }

  /** A code that verifies has not expired. */
  lemma VerifiedIsNotExpired(u: PendingUser, input: string, now: int)
    requires VerifyOtp(u, input, now)
    ensures !IsOtpExpired(u, now)
  {
  }

  /** Once the expiry has passed, no input verifies, not even the stored code. */
  lemma ExpiredRejectsEveryCode(u: PendingUser, input: string, now: int)
    requires u.otpExpires.Some? && now > u.otpExpires.value
    ensures !VerifyOtp(u, input, now) && IsOtpExpired(u, now)
  {
  }

  /**
   * A code issued at `t` verifies up to and including `t + OtpLifetime`, so at every
   * instant of the 15 minutes after issue, and at no later instant; any other input never verifies.
   */
  lemma IssuedCodeLifetime(u: PendingUser, draw: real, t: int, now: int, other: string)
    requires 0.0 <= draw < 1.0
    requires other != OtpCode(draw)
    ensures VerifyOtp(Reissued(u, OtpCode(draw), t), OtpCode(draw), now) <==> now <= t + OtpLifetime
    ensures !VerifyOtp(Reissued(u, OtpCode(draw), t), other, now)
  {
  }

  /** A Mongoose `PendingUser` document in memory. */
  class PendingUserDoc {
    var id: nat
    var email: string
    var password: string
    var firstName: string
    var lastName: string
    var otp: Option<string>
    var otpExpires: Option<int>
    var verificationToken: string
    var createdAt: int

    /** The document as stored. */
    function Record(): PendingUser
      reads this
    {
      PendingUser(id, email, password, firstName, lastName, otp, otpExpires, verificationToken, createdAt)
    }

    /**
     * `new PendingUser({...})`: the schema lower-cases and trims the email and
     * trims the names; no code is set yet, and the timestamp is the creation time.
     */
    constructor (id: nat, email: string, password: string, firstName: string, lastName: string, token: string, now: int)
      ensures Record() == PendingUser(id, EmailKey(email), password, Trim(firstName), Trim(lastName), None, None, token, now)
    {
      this.id := id;
      this.email := EmailKey(email);
      this.password := password;
      this.firstName := Trim(firstName);
      this.lastName := Trim(lastName);
      this.otp := None;
      this.otpExpires := None;
      this.verificationToken := token;
      this.createdAt := now;
    }

    /** A document loaded from the collection. */
    constructor Load(r: PendingUser)
      ensures Record() == r
    {
      id, email, password, firstName, lastName := r.id, r.email, r.password, r.firstName, r.lastName;
      otp, otpExpires, verificationToken, createdAt := r.otp, r.otpExpires, r.verificationToken, r.createdAt;
    }

    /** `generateOTP()`: stores a fresh six-digit code valid for `OtpLifetime` and returns it. */
    method GenerateOtp(draw: real, now: int) returns (code: string)
      requires 0.0 <= draw < 1.0
      modifies this
      ensures code == OtpCode(draw) && |code| == 6 && AllDigits(code)
      ensures Record() == Reissued(old(Record()), code, now)
    {
      code := OtpCode(draw);
      otp := Some(code);
      otpExpires := Some(now + OtpLifetime);
    }
  }
}
