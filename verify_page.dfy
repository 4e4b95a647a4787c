/**
 * The page a new registrant types the six-digit code into: six one-character slots,
 * the change, key and paste handlers, the guard in front of the verification request,
 * how the replies are shown, and the fifteen-minute countdown that also decides when
 * a new code may be requested. The countdown is a `Countdown` object whose `Tick` is
 * the one-second interval callback; fetches are replaced by their replies.
 */
module VerifyPage {
  import opened Wrappers
  import opened Text
  import opened Seqs

  // ----- Time display -----

  /** `padStart(2, '0')`. */
  function Pad2(t: string): (r: string)
    ensures |t| < 2 ==> r == "0" + t
    ensures |t| >= 2 ==> r == t
  {
    if |t| < 2 then "0" + t else t
  }

  /** `formatTime(seconds)`: whole minutes, a colon, and the remaining seconds on two digits. */
  function FormatTime(seconds: nat): string {
    DecimalString(seconds / 60) + ":" + Pad2(DecimalString(seconds % 60))
  }

  /** A leading zero does not change the number a digit string denotes. */
  lemma {:induction false} LeadingZero(d: string)
    requires AllDigits(d)
    ensures AllDigits("0" + d) && DecimalValue("0" + d) == DecimalValue(d)
    decreases |d|
  {
    var z := "0" + d;
    if d != [] {
      LeadingZero(d[..|d| - 1]);
      assert z[..|z| - 1] == "0" + d[..|d| - 1];
    }
  }

  /**
   * The display reads back as the time: the part before the colon is the minutes, the part
   * after it is exactly two digits giving the seconds below 60, and together they are `seconds`.
   */
  lemma FormatTimeReadsBack(seconds: nat)
    ensures var t := FormatTime(seconds); var i := IndexOf(t, ':');
      && 0 < i && i + 3 == |t|
      && AllDigits(t[..i]) && AllDigits(t[i + 1..])
      && DecimalValue(t[i + 1..]) < 60
      && DecimalValue(t[..i]) * 60 + DecimalValue(t[i + 1..]) == seconds
  {
    var m, s := seconds / 60, seconds % 60;
    var dm, ds := DecimalString(m), DecimalString(s);
    DecimalRoundTrip(m);
    DecimalRoundTrip(s);
    if s < 10 {
      DecimalLength(s, 1);
      LeadingZero(ds);
    } else {
      DecimalLength(s, 2);
    }
    var t := FormatTime(seconds);
    assert t == dm + ":" + Pad2(ds);
    assert ':' !in dm by {
      forall k | 0 <= k < |dm| ensures dm[k] != ':' {
        assert IsDigit(dm[k]);
      }
    }
    assert t[|dm|] == ':';
    var i := IndexOf(t, ':');
    assert i == |dm| by {
      assert t[..|dm|] == dm;
    }
    assert t[..i] == dm;
    assert t[i + 1..] == Pad2(ds);
  }

  /** The full fifteen minutes and a time with single-digit seconds. */
  lemma FormatTimeExamples()
    ensures FormatTime(900) == "15:00"
    ensures FormatTime(65) == "1:05"
  {
  }

  /** "Verfügbar in …": the time left until resend unlocks at 13:00, never negative. */
  function AvailableIn(timeLeft: nat): (wait: nat)
    ensures timeLeft > 780 ==> wait + 780 == timeLeft
    ensures timeLeft <= 780 ==> wait == 0
  {
    if timeLeft > 780 then timeLeft - 780 else 0
  }

  /**
   * While resend is locked in a countdown begun at 900, the wait shown is the number of ticks
   * after which resend is still locked; one tick more unlocks it.
   */
  lemma AvailableInCountsDown(n: nat)
    requires n <= 120
    ensures var c := Ticks(Start, n);
      && !c.canResend && c.timeLeft > 0
      && !Ticks(Start, n + AvailableIn(c.timeLeft)).canResend
      && Ticks(Start, n + AvailableIn(c.timeLeft) + 1).canResend
  {
    CountdownFromStart(n);
    CountdownFromStart(n + AvailableIn(Ticks(Start, n).timeLeft));
    CountdownFromStart(n + AvailableIn(Ticks(Start, n).timeLeft) + 1);
  }

  // ----- The six slots -----

  const SlotCount: nat := 6

  const EmptySlots: seq<string> := ["", "", "", "", "", ""]

  /** What the slots always hold: six entries, each empty or one digit. */
  predicate WellFormed(otp: seq<string>) {
    |otp| == SlotCount && forall i :: 0 <= i < |otp| ==> |otp[i]| <= 1 && AllDigits(otp[i])
  }

  predicate EmptySlot(slot: string) { slot == "" }

  /** `value.slice(-1)`: the last character, or nothing. */
  function LastChar(value: string): (r: string)
    ensures |r| <= 1
    ensures r == "" <==> value == ""
    ensures r != "" ==> r[0] == value[|value| - 1]
  {
    if value == "" then "" else [value[|value| - 1]]
  }

  /** `handleOtpChange(index, value)` on the slots: a value with a non-digit is ignored. */
  function OtpChange(otp: seq<string>, index: nat, value: string): (r: seq<string>)
    requires index < |otp|
    ensures !AllDigits(value) ==> r == otp
    ensures AllDigits(value) ==> |r| == |otp| && r[index] == LastChar(value)
    ensures forall j :: 0 <= j < |otp| && j != index ==> r[j] == otp[j]
    ensures WellFormed(otp) ==> WellFormed(r)
  {
    if !AllDigits(value) then otp else otp[index := LastChar(value)]
  }

  /** The input focused after a change: the next one, once a digit was typed before the last slot. */
  function FocusAfterChange(index: nat, value: string): (next: Option<nat>)
    ensures next.Some? <==> AllDigits(value) && value != "" && index < 5
    ensures next.Some? ==> next.value == index + 1 && next.value < SlotCount
  {
    if AllDigits(value) && value != "" && index < 5 then Some(index + 1) else None
  }

  datatype Key = Backspace | Enter | OtherKey

  /** `handleKeyDown`: the input to focus, and whether verification starts. */
  datatype KeyEffect = KeyEffect(focus: Option<nat>, verify: bool)

  function KeyDown(otp: seq<string>, index: nat, key: Key): (e: KeyEffect)
    requires index < |otp|
    ensures e.focus.Some? <==> key == Backspace && otp[index] == "" && index > 0
    ensures e.focus.Some? ==> e.focus.value + 1 == index
    ensures e.verify <==> key == Enter
  {
    KeyEffect(if key == Backspace && otp[index] == "" && index > 0 then Some(index - 1) else None,
              key == Enter)
  }

  /**
   * The focus moves only between neighbouring slots and never leaves the six of them; typing
   * a digit moves it one slot on, and Backspace on the next, still empty, slot moves it back.
   */
  lemma FocusNavigation(otp: seq<string>, index: nat, value: string, key: Key, c: char)
    requires WellFormed(otp) && index < SlotCount
    ensures FocusAfterChange(index, value).Some? ==> FocusAfterChange(index, value).value == index + 1 < SlotCount
    ensures KeyDown(otp, index, key).focus.Some? ==> KeyDown(otp, index, key).focus.value + 1 == index
    ensures IsDigit(c) && index + 1 < SlotCount && otp[index + 1] == "" ==>
      && FocusAfterChange(index, [c]) == Some(index + 1)
      && KeyDown(OtpChange(otp, index, [c]), index + 1, Backspace).focus == Some(index)
  {
  }

  /** The pasted text with every non-digit removed, cut to six characters. */
  function Pasted(text: string): (d: string)
    ensures |d| <= SlotCount && AllDigits(d)
    ensures IsSubsequence(d, text)
  {
    var all := Filter(text, IsDigit);
    FilterIsSubsequence(text, IsDigit);
    assert forall k :: 0 <= k < |all| ==> all[k] in all;
    if |all| <= SlotCount then all
    else
      PrefixIsSubsequence(all, SlotCount);
      SubsequenceTransitive(all[..SlotCount], all, text);
      all[..SlotCount]
  }

  /** A prefix is a subsequence. */
  lemma {:induction false} PrefixIsSubsequence<T>(s: seq<T>, n: nat)
    requires n <= |s|
    ensures IsSubsequence(s[..n], s)
    decreases n
  {
    if n == 0 {
    } else {
      PrefixIsSubsequence(s[1..], n - 1);
      assert s[..n][1..] == s[1..][..n - 1];
    }
  }

  /**
   * `handlePaste`: the digits of the pasted text fill the first slots in order, the other slots
   * keep what they held, and the focus moves to the first empty slot, or to the last one.
   */
  method HandlePaste(otp: seq<string>, text: string) returns (newOtp: seq<string>, focus: nat)
    requires |otp| == SlotCount
    ensures var d := Pasted(text);
      && |newOtp| == SlotCount
      && (forall i :: 0 <= i < |d| ==> newOtp[i] == [d[i]])
      && (forall i :: |d| <= i < SlotCount ==> newOtp[i] == otp[i])
    ensures focus < SlotCount
    ensures (exists i :: 0 <= i < |newOtp| && newOtp[i] == "") ==>
              newOtp[focus] == "" && forall j :: 0 <= j < focus ==> newOtp[j] != ""
    ensures (forall i :: 0 <= i < |newOtp| ==> newOtp[i] != "") ==> focus == 5
    ensures WellFormed(otp) ==> WellFormed(newOtp)
  {
    var d := Pasted(text);
    newOtp := otp;
    for i := 0 to |d|
      invariant |newOtp| == SlotCount
      invariant forall k :: 0 <= k < i ==> newOtp[k] == [d[k]]
      invariant forall k :: i <= k < SlotCount ==> newOtp[k] == otp[k]
    {
      newOtp := newOtp[i := [d[i]]];
    }
    var next := FirstIndex(newOtp, EmptySlot);
    focus := if next != -1 then next else 5;
  }

  /** Pasting a six-digit code keeps it whole: it fills every slot, whatever was there. */
  lemma PasteFullCode(code: string)
    requires |code| == SlotCount && AllDigits(code)
    ensures Pasted(code) == code
  {
    FilterAll(code, IsDigit);
  }

  // ----- Verification -----

  /** `otp.join('')`. */
  function Code(otp: seq<string>): string {
    Join(otp, "")
  }

  /** The joined slots are as long as the number of filled slots, and consist of digits. */
  lemma {:induction false} CodeLength(otp: seq<string>)
    requires forall i :: 0 <= i < |otp| ==> |otp[i]| <= 1 && AllDigits(otp[i])
    ensures |Code(otp)| <= |otp|
    ensures |Code(otp)| == |otp| <==> forall i :: 0 <= i < |otp| ==> otp[i] != ""
    ensures AllDigits(Code(otp))
    decreases |otp|
  {
    if |otp| > 1 {
      var init := otp[..|otp| - 1];
      CodeLength(init);
      assert Code(otp) == Code(init) + otp[|otp| - 1];
      if forall i :: 0 <= i < |otp| ==> otp[i] != "" {
        assert forall i :: 0 <= i < |init| ==> init[i] != "" by {
          forall i | 0 <= i < |init| ensures init[i] != "" {
            assert init[i] == otp[i];
          }
        }
      }
      if |Code(otp)| == |otp| {
        forall i | 0 <= i < |otp| ensures otp[i] != "" {
          if i < |init| { assert init[i] == otp[i]; }
        }
      }
    }
  }

  /** One digit per slot joins back to the digits: a pasted code is posted exactly as pasted. */
  lemma {:induction false} CodeOfDigits(slots: seq<string>, code: string)
    requires |slots| == |code|
    requires forall i :: 0 <= i < |slots| ==> slots[i] == [code[i]]
    ensures Code(slots) == code
    decreases |code|
  {
    if |code| > 1 {
      var n := |code| - 1;
      CodeOfDigits(slots[..n], code[..n]);
      assert code == code[..n] + [code[n]];
    } else if |code| == 1 {
      assert code == [code[0]];
    }
  }

  /** What pressing "Code bestätigen" does before any request. */
  datatype VerifyStep = Incomplete | ExpiredLocally | Post(code: string)

  /** `handleVerify`'s two guards: six characters, and time left. */
  function HandleVerify(otp: seq<string>, timeLeft: int): (s: VerifyStep)
    ensures s == Incomplete <==> |Code(otp)| != 6
    ensures s == ExpiredLocally <==> |Code(otp)| == 6 && timeLeft <= 0
    ensures s.Post? ==> s.code == Code(otp)
  {
    var code := Code(otp);
    if |code| != 6 then Incomplete
    else if timeLeft <= 0 then ExpiredLocally
    else Post(code)
  }

  /** A request is posted exactly when every slot holds a digit and time is left; it carries six digits. */
  lemma VerifySendsFullCode(otp: seq<string>, timeLeft: int)
    requires WellFormed(otp)
    ensures HandleVerify(otp, timeLeft).Post? <==> timeLeft > 0 && forall i :: 0 <= i < SlotCount ==> otp[i] != ""
    ensures HandleVerify(otp, timeLeft).Post? ==> |HandleVerify(otp, timeLeft).code| == 6 && AllDigits(HandleVerify(otp, timeLeft).code)
  {
    CodeLength(otp);
  }

  /** The reply to a request, or a request that never reached the server. */
  datatype Response = NoConnection | Replied(ok: bool, status: nat, error: Option<string>)

  datatype AlertKind = ErrorAlert | WarningAlert | SuccessAlert

  /** The alerts `handleVerify` shows. */
  datatype VerifyNotice = GuardIncomplete | GuardExpired
                        | ServerMessage(message: string) | InvalidCode | CodeExpired | NotFound
                        | VerifyFailed | Verified | ConnectionFailed

  function VerifyKind(n: VerifyNotice): AlertKind {
    match n
    case CodeExpired => WarningAlert
    case Verified => SuccessAlert
    case _ => ErrorAlert
  }

  /** The alert for a guard that stopped the request. */
  function GuardNotice(s: VerifyStep): (n: VerifyNotice)
    requires !s.Post?
    ensures n == GuardIncomplete <==> s == Incomplete
    ensures VerifyKind(n) == ErrorAlert
  {
    if s == Incomplete then GuardIncomplete else GuardExpired
  }

  /** How `handleVerify` shows the reply: 400 and the other failures prefer the server's message. */
  function ShowVerifyReply(r: Response): (n: VerifyNotice)
    ensures VerifyKind(n) == SuccessAlert <==> r.Replied? && r.ok
    ensures VerifyKind(n) == WarningAlert <==> r.Replied? && !r.ok && r.status == 410
    ensures n == NotFound <==> r.Replied? && !r.ok && r.status == 404
    ensures n.ServerMessage? <==> r.Replied? && !r.ok && r.status !in {404, 410} && Present(r.error)
    ensures n.ServerMessage? ==> n.message == r.error.value
    ensures n == InvalidCode <==> r.Replied? && !r.ok && r.status == 400 && !Present(r.error)
    ensures n == ConnectionFailed <==> r.NoConnection?
  {
    match r
    case NoConnection => ConnectionFailed
    case Replied(ok, status, error) =>
      if ok then Verified
      else if status == 400 then (if Present(error) then ServerMessage(error.value) else InvalidCode)
      else if status == 410 then CodeExpired
      else if status == 404 then NotFound
      else if Present(error) then ServerMessage(error.value)
      else VerifyFailed
  }

  /** The German text of each alert. */
  function VerifyText(n: VerifyNotice): string {
    match n
    case GuardIncomplete => "Bitte gib alle 6 Ziffern ein."
    case GuardExpired => "Der Code ist abgelaufen. Bitte fordere einen neuen Code an."
    case ServerMessage(m) => m
    case InvalidCode => "Ungültiger Code."
    case CodeExpired => "Der Code ist abgelaufen. Bitte fordere einen neuen Code an."
    case NotFound => "Account nicht gefunden oder bereits verifiziert."
    case VerifyFailed => "Verifizierung fehlgeschlagen."
    case Verified => "\U{1F389} E-Mail erfolgreich bestätigt! Du wirst weitergeleitet..."
    case ConnectionFailed => "Verbindung zum Server fehlgeschlagen."
  }

  // ----- The countdown -----

  /** The countdown's state: seconds left, whether resend is allowed, whether the interval still runs. */
  datatype Clock = Clock(timeLeft: int, canResend: bool, running: bool)

  /** Fifteen minutes, resend locked, the interval running. */
  const Start := Clock(900, false, true)

  /** The interval callback: stop at 0 and allow resend, allow resend on passing 13:00, otherwise count down. */
  function Step(c: Clock): (r: Clock)
    ensures 0 <= c.timeLeft ==> 0 <= r.timeLeft <= c.timeLeft
    ensures c.canResend ==> r.canResend
    ensures r.running ==> c.running
    ensures !c.running ==> r == c
  {
    if !c.running then c
    else if c.timeLeft <= 1 then Clock(0, true, false)
    else if c.timeLeft == 780 then Clock(779, true, true)
    else Clock(c.timeLeft - 1, c.canResend, true)
  }

  /** The state after n ticks. */
  function Ticks(c: Clock, n: nat): Clock
    decreases n
  {
    if n == 0 then c else Ticks(Step(c), n - 1)
  }

  /** The state t seconds before the end of a countdown begun at 900. */
  function Counting(t: nat): Clock {
    Clock(t, t < 780, t > 0)
  }

  /** From such a state every tick leads to the next one, and the end state stays put. */
  lemma {:induction false} TicksCounting(t: nat, n: nat)
    ensures Ticks(Counting(t), n) == Counting(if n >= t then 0 else t - n)
    decreases n
  {
    if n > 0 {
      assert Step(Counting(t)) == Counting(if t == 0 then 0 else t - 1);
      TicksCounting(if t == 0 then 0 else t - 1, n - 1);
    }
  }

  /**
   * Begun at 900, the countdown after n ticks shows 900 - n down to 0, then stops; resend is
   * allowed from the 121st tick on (once 13:00 has passed), and at expiry in any case.
   */
  lemma CountdownFromStart(n: nat)
    ensures Ticks(Start, n).timeLeft == (if n >= 900 then 0 else 900 - n)
    ensures Ticks(Start, n).canResend <==> n > 120
    ensures Ticks(Start, n).running <==> n < 900
  {
    assert Start == Counting(900);
    TicksCounting(900, n);
  }

  /** The countdown object the page's timer drives. */
  class Countdown {
    var timeLeft: int
    var canResend: bool
    var running: bool

    function State(): Clock
      reads this
    {
      Clock(timeLeft, canResend, running)
    }

    constructor ()
      ensures State() == Start
    {
      timeLeft, canResend, running := 900, false, true;
    }

    /** One second passes. */
    method Tick()
      modifies this
      ensures State() == Step(old(State()))
    {
      if !running {
        return;
      }
      if timeLeft <= 1 {
        running := false;
        canResend := true;
        timeLeft := 0;
        return;
      }
      if timeLeft == 780 {
        canResend := true;
      }
      timeLeft := timeLeft - 1;
    }

    /**
     * A successful resend: fifteen minutes again and resend locked. The interval is not
     * touched, so once it has stopped at 0 it stays stopped.
     */
    method Restart()
      modifies this
      ensures State() == RestartAsWritten(old(State()))
    {
      timeLeft, canResend := 900, false;
    }
  }

  /** The reset a successful resend evidently should make: whatever state the countdown is in, it begins again. */
  function Restarted(c: Clock): (r: Clock)
    ensures forall n: nat :: Ticks(r, n).canResend <==> n > 120
    ensures forall n: nat :: Ticks(r, n).running <==> n < 900
  {
    assert forall n: nat :: (Ticks(Start, n).canResend <==> n > 120) && (Ticks(Start, n).running <==> n < 900) by {
      forall n: nat ensures (Ticks(Start, n).canResend <==> n > 120) && (Ticks(Start, n).running <==> n < 900) {
        CountdownFromStart(n);
      }
    }
    Start
  }

  /** The reset a successful resend makes as the page writes it: the interval is not restarted. */
  function RestartAsWritten(c: Clock): (r: Clock)
    ensures r.timeLeft == 900 && !r.canResend
    ensures c.running ==> r == Restarted(c)
    ensures !c.running ==> forall n: nat :: Ticks(r, n) == r
  {
    var r := c.(timeLeft := 900, canResend := false);
    assert !c.running ==> forall n: nat :: Ticks(r, n) == r by {
      if !c.running {
        forall n: nat ensures Ticks(r, n) == r {
          StoppedStays(r, n);
        }
      }
    }
    r
  }

  /** A stopped interval never changes the countdown again. */
  lemma {:induction false} StoppedStays(c: Clock, n: nat)
    requires !c.running
    ensures Ticks(c, n) == c
    decreases n
  {
    if n > 0 {
      StoppedStays(c, n - 1);
    }
  }

  /**
   * Resending after the code expired, as written: the countdown stays at 15:00 for ever and
   * resend stays locked, so no third code can be requested and the expiry guard never fires.
   */
  lemma ResendAfterExpiryFreezes(n: nat)
    ensures Ticks(RestartAsWritten(Ticks(Start, 900)), n) == Clock(900, false, false)
  {
    CountdownFromStart(900);
    assert RestartAsWritten(Ticks(Start, 900)) == Clock(900, false, false);
  }

  /** Before the code expired the interval still runs, and the reset as written is the intended one. */
  lemma RestartAgreesWhileRunning(n: nat)
    requires n < 900
    ensures Ticks(Start, n).running
    ensures RestartAsWritten(Ticks(Start, n)) == Restarted(Ticks(Start, n))
  {
    CountdownFromStart(n);
  }

  /** With the interval restarted, every resend begins a full countdown that unlocks resend again after 121 ticks. */
  lemma ResendRestartsCountdown(c: Clock, n: nat)
    ensures Ticks(Restarted(c), n).canResend <==> n > 120
    ensures Ticks(Restarted(c), n).timeLeft == (if n >= 900 then 0 else 900 - n)
    ensures Ticks(Restarted(c), n).running <==> n < 900
  {
    CountdownFromStart(n);
  }

  // ----- Resending -----

  /** The alerts `handleResendOtp` shows. */
  datatype ResendNotice = ResendServerMessage(message: string) | ResendFailed | ResendSent | ResendNoConnection

  function ShowResendReply(r: Response): (n: ResendNotice)
    ensures n == ResendSent <==> r.Replied? && r.ok
    ensures n.ResendServerMessage? <==> r.Replied? && !r.ok && Present(r.error)
    ensures n.ResendServerMessage? ==> n.message == r.error.value
    ensures n == ResendNoConnection <==> r.NoConnection?
  {
    match r
    case NoConnection => ResendNoConnection
    case Replied(ok, _, error) =>
      if ok then ResendSent
      else if Present(error) then ResendServerMessage(error.value)
      else ResendFailed
  }

  /** The slots after a resend reply: all cleared after a success, untouched otherwise. */
  function SlotsAfterResend(otp: seq<string>, r: Response): (slots: seq<string>)
    ensures r.Replied? && r.ok ==> slots == EmptySlots && WellFormed(slots)
    ensures !(r.Replied? && r.ok) ==> slots == otp
  {
    if r.Replied? && r.ok then EmptySlots else otp
  }

  /** `handleResendOtp`: the slots and the countdown after the reply; a success resets the countdown as the page writes it. */
  method HandleResend(otp: seq<string>, clock: Countdown, r: Response) returns (slots: seq<string>, notice: ResendNotice)
    modifies clock
    ensures slots == SlotsAfterResend(otp, r) && notice == ShowResendReply(r)
    ensures r.Replied? && r.ok ==> clock.State() == RestartAsWritten(old(clock.State()))
    ensures !(r.Replied? && r.ok) ==> clock.State() == old(clock.State())
  {
    notice := ShowResendReply(r);
    slots := SlotsAfterResend(otp, r);
    if notice == ResendSent {
      clock.Restart();
    }
  }

  /** After a successful resend nothing can be posted until six digits are entered again. */
  lemma ClearedSlotsBlockVerify(timeLeft: int)
    ensures HandleVerify(EmptySlots, timeLeft) == Incomplete
  {
    CodeLength(EmptySlots);
  }

  function ResendText(n: ResendNotice): string {
    match n
    case ResendServerMessage(m) => m
    case ResendFailed => "Neuer Code konnte nicht gesendet werden."
    case ResendSent => "\U{1F4E7} Neuer Code wurde gesendet! Prüfe deine E-Mails."
    case ResendNoConnection => "Verbindung zum Server fehlgeschlagen."
  }
}
