/** The OTP page (client/src/pages/auth/OtpVerification.tsx): the code check, the resend countdown
    kept across reloads through the "otpTimestamp" entry of `localStorage`, and its display. Times
    are whole seconds, `Math.floor(Date.now() / 1000)`, passed in as `now`. */
module OtpVerification {
  import opened Wrappers
  import opened Strings
  import opened AuthUtils
  import AuthService

  const IncompleteOtp := "Please enter a complete 6-digit OTP"
  const NonNumericOtp := "OTP must contain only numbers"
  /** Seconds before another code may be requested. */
  const ResendWindow := 60
  const AfterVerify := "/login"

  // ---------------------------------------------------------------- the code

  /** `validateOtp`'s verdict: the length test first, then the digits test. */
  function OtpError(otp: string): (r: Option<string>)
    ensures r.None? <==> IsSixDigits(otp)
    ensures JsLength(otp) != 6 ==> r == Some(IncompleteOtp)
    ensures JsLength(otp) == 6 && !IsSixDigits(otp) ==> r == Some(NonNumericOtp)
  {
    if otp == "" || JsLength(otp) != 6 then Some(IncompleteOtp)
    else if !IsSixDigits(otp) then Some(NonNumericOtp)
    else None
  }

  /** Five characters of which one is above U+FFFF make six code units: the length test passes
      and the digits test reports the input. */
  lemma AstralOtpIsNonNumeric()
    ensures OtpError("1234\U{1F600}") == Some(NonNumericOtp)
    ensures OtpError("12345\U{1F600}") == Some(IncompleteOtp)
  {
  }

  /** Every code the server mails passes the page's check. */
  lemma ServerCodesPass(random: real)
    requires 0.0 <= random < 1.0
    ensures OtpError(AuthService.OtpFromRandom(random)).None?
  {
  }

  // ---------------------------------------------------------------- the countdown

  /** `Math.max(0, 60 - elapsed)` */
  function Remaining(elapsed: int): (r: int)
    ensures r >= 0
    ensures r >= ResendWindow - elapsed
    ensures r == 0 || r == ResendWindow - elapsed
  {
    if ResendWindow - elapsed > 0 then ResendWindow - elapsed else 0
  }

  /** With a clock that does not run backwards the countdown stays within the window, reaches zero
      exactly when the window has passed, and never goes up. */
  lemma RemainingBounds(elapsed: int, later: int)
    requires 0 <= elapsed <= later
    ensures 0 <= Remaining(elapsed) <= ResendWindow
    ensures Remaining(elapsed) == 0 <==> elapsed >= ResendWindow
    ensures Remaining(later) <= Remaining(elapsed)
  {
  }

  // ---------------------------------------------------------------- the clock display

  /** `formatTime(seconds)`: minutes, a colon, and the seconds padded to two digits. */
  function FormatTime(seconds: nat): string {
    NatToString(seconds / 60) + ":" + PadStart2(NatToString(seconds % 60))
  }

  /** The position of the first ':' in `s`, if any. */
  function ColonIndex(s: string): (r: Option<nat>)
    ensures r.Some? ==> r.value < |s| && s[r.value] == ':' && forall i | 0 <= i < r.value :: s[i] != ':'
    ensures r.None? ==> forall i | 0 <= i < |s| :: s[i] != ':'
  {
    if s == [] then None
    else if s[0] == ':' then Some(0)
    else match ColonIndex(s[1..])
      case None => None
      case Some(k) => Some(k + 1)
  }

  /** The first colon of `a + ":" + b` is the one after `a` when `a` has none. */
  lemma {:induction false} ColonAfter(a: string, b: string)
    requires forall i | 0 <= i < |a| :: a[i] != ':'
    ensures ColonIndex(a + ":" + b) == Some(|a|)
  {
    if a != [] {
      assert (a + ":" + b)[1..] == a[1..] + ":" + b;
      ColonAfter(a[1..], b);
    }
  }

  /** Reads a "m:ss" display back as a number of seconds. */
  function ParseClock(s: string): Option<nat> {
    match ColonIndex(s)
    case None => None
    case Some(k) =>
      match (ParseInt(s[..k]), ParseInt(s[k + 1..]))
      case (Some(m), Some(sec)) => if sec < 60 then Some(m * 60 + sec) else None
      case _ => None
  }

  /** The padded seconds are always two digits and read back as the number they print. */
  lemma PaddedSeconds(n: nat)
    requires n < 60
    ensures |PadStart2(NatToString(n))| == 2 && AllDigits(PadStart2(NatToString(n)))
    ensures ParseInt(PadStart2(NatToString(n))) == Some(n)
  {
    var t := PadStart2(NatToString(n));
    if n < 10 {
      NatToStringLength(n, 1);
      assert t == ['0', DigitChar(n)];
      assert LeadingDigits(t) == t by {
        LeadingDigitsOfDigits(t);
      }
      assert t[..1] == ['0'];
      assert DigitsValue(t[..1]) == 0 by {
        assert t[..1][..0] == [];
      }
    } else {
      NatToStringLength(n, 2);
      ParseIntOfNatToString(n);
    }
  }

  /** The display is `m:ss` with exactly two digits after the colon, and it denotes the number of
      seconds it was made from. */
  lemma {:induction false} FormatTimeRoundTrip(seconds: nat)
    ensures var t := FormatTime(seconds); |t| >= 4 && t[|t| - 3] == ':'
    ensures ParseClock(FormatTime(seconds)) == Some(seconds)
  {
    var m, sec := NatToString(seconds / 60), PadStart2(NatToString(seconds % 60));
    var t := FormatTime(seconds);
    PaddedSeconds(seconds % 60);
    assert t == m + ":" + sec;
    assert forall i | 0 <= i < |m| :: m[i] != ':';
    ColonAfter(m, sec);
    assert t[..|m|] == m;
    assert t[|m| + 1..] == sec;
    ParseIntOfNatToString(seconds / 60);
  }

  /** The page opens on "1:00", and 125 seconds read "2:05". */
  lemma FormatTimeExamples()
    ensures FormatTime(60) == "1:00"
    ensures FormatTime(125) == "2:05"
  {
    assert NatToString(1) == "1" && NatToString(0) == "0";
    assert NatToString(2) == "2" && NatToString(5) == "5";
  }

  // ---------------------------------------------------------------- the page

  class OtpPage {
    var otp: string
    var error: string
    var timeLeft: int
    var canResend: bool
    /** Whether the one-second interval set up on mount is still scheduled. */
    var timerRunning: bool
    const storage: Storage

    /** The browser store holds a valid user entry and, when present, a numeric timestamp. */
    ghost predicate Valid()
      reads this, storage
    {
      storage.Valid()
      && (OtpTimestampKey in storage.items ==> ParseInt(storage.items[OtpTimestampKey]).Some?)
      && timeLeft >= 0
    }

    /** The initial state, before the mount effect runs. */
    constructor (storage: Storage)
      ensures this.storage == storage
      ensures otp == "" && error == "" && timeLeft == ResendWindow && !canResend && !timerRunning
    {
      this.storage := storage;
      otp := "";
      error := "";
      timeLeft := ResendWindow;
      canResend := false;
      timerRunning := false;
    }

    /** The stored timestamp, when it is truthy. */
    function SavedTimestamp(): (r: Option<nat>)
      requires Valid()
      reads this, storage
      ensures r.Some? <==> OtpTimestampKey in storage.items
    {
      if OtpTimestampKey in storage.items && storage.items[OtpTimestampKey] != "" then
        ParseInt(storage.items[OtpTimestampKey])
      else None
    }

    /** The mount effect: resume a countdown from the stored timestamp, or start one by storing
        `now`; then schedule the interval. */
    method Mount(now: nat)
      modifies this, storage
      requires Valid()
      ensures Valid()
      ensures otp == old(otp) && error == old(error) && timerRunning
      ensures old(SavedTimestamp()).Some? ==>
        var remaining := Remaining(now - old(SavedTimestamp()).value);
        timeLeft == remaining && (canResend <==> remaining == 0) && storage.items == old(storage.items)
      ensures old(SavedTimestamp()).None? ==>
        storage.items == old(storage.items)[OtpTimestampKey := NatToString(now)]
        && timeLeft == old(timeLeft) && canResend == old(canResend)
    {
      var saved := SavedTimestamp();
      if saved.Some? {
        var remaining := Remaining(now - saved.value);
        timeLeft := remaining;
        canResend := remaining == 0;
      } else {
        ParseIntOfNatToString(now);
        storage.SetItem(OtpTimestampKey, NatToString(now));
      }
      timerRunning := true;
    }

    /** One run of the interval callback: refresh the countdown and, once it reaches zero, allow a
        resend and clear the interval. */
    method Tick(now: nat)
      modifies this
      requires Valid() && timerRunning
      ensures Valid()
      ensures otp == old(otp) && error == old(error)
      ensures SavedTimestamp().None? ==>
        timeLeft == old(timeLeft) && canResend == old(canResend) && timerRunning
      ensures SavedTimestamp().Some? ==>
        var remaining := Remaining(now - SavedTimestamp().value);
        && timeLeft == remaining
        && (remaining == 0 ==> canResend && !timerRunning)
        && (remaining != 0 ==> canResend == old(canResend) && timerRunning)
    {
      var saved := SavedTimestamp();
      if saved.Some? {
        var remaining := Remaining(now - saved.value);
        timeLeft := remaining;
        if remaining == 0 {
          canResend := true;
          timerRunning := false;
        }
      }
    }

    /** `handleOtpChange(value)`: takes the input and clears the error. */
    method HandleOtpChange(value: string)
      modifies this
      ensures otp == value && error == ""
      ensures timeLeft == old(timeLeft) && canResend == old(canResend) && timerRunning == old(timerRunning)
    {
      otp := value;
      if error != "" {
        error := "";
      }
    }

    /** `validateOtp()`: reports whether the input is six digits, showing the first failing
        message otherwise. */
    method ValidateOtp() returns (ok: bool)
      modifies this
      ensures ok <==> IsSixDigits(otp)
      ensures !ok ==> error == OtpError(otp).value
      ensures ok ==> error == old(error)
      ensures otp == old(otp) && timeLeft == old(timeLeft) && canResend == old(canResend)
      ensures timerRunning == old(timerRunning)
    {
      if otp == "" || JsLength(otp) != 6 {
        error := IncompleteOtp;
        return false;
      }
      if !IsSixDigits(otp) {
        error := NonNumericOtp;
        return false;
      }
      return true;
    }

    /** `handleVerify()`: after a passing check the page moves on to the login page. */
    method HandleVerify() returns (navigateTo: Option<string>)
      modifies this
      ensures navigateTo.Some? <==> IsSixDigits(otp)
      ensures navigateTo.Some? ==> navigateTo.value == AfterVerify
      ensures navigateTo.None? ==> error == OtpError(otp).value
      ensures otp == old(otp) && timeLeft == old(timeLeft) && canResend == old(canResend)
      ensures timerRunning == old(timerRunning)
    {
      var ok := ValidateOtp();
      if !ok {
        return None;
      }
      return Some(AfterVerify);
    }

    /** `handleResend()` as written: nothing unless a resend is allowed; then a new timestamp, a
        full window, and a cleared input. The interval is not scheduled again. */
    method HandleResend(now: nat)
      modifies this, storage
      requires Valid()
      ensures Valid()
      ensures !old(canResend) ==>
        otp == old(otp) && error == old(error) && timeLeft == old(timeLeft) && !canResend
        && storage.items == old(storage.items)
      ensures old(canResend) ==>
        otp == "" && error == "" && timeLeft == ResendWindow && !canResend
        && storage.items == old(storage.items)[OtpTimestampKey := NatToString(now)]
      ensures timerRunning == old(timerRunning)
    {
      if !canResend {
        return;
      }
      ParseIntOfNatToString(now);
      storage.SetItem(OtpTimestampKey, NatToString(now));
      timeLeft := ResendWindow;
      canResend := false;
      otp := "";
      error := "";
    }

    /** `handleResend()` with the countdown restarted, as the "Reset timer" step means it. */
    method HandleResendIntended(now: nat)
      modifies this, storage
      requires Valid()
      ensures Valid()
      ensures !old(canResend) ==>
        otp == old(otp) && error == old(error) && timeLeft == old(timeLeft) && !canResend
        && storage.items == old(storage.items) && timerRunning == old(timerRunning)
      ensures old(canResend) ==>
        otp == "" && error == "" && timeLeft == ResendWindow && !canResend && timerRunning
        && storage.items == old(storage.items)[OtpTimestampKey := NatToString(now)]
    {
      if !canResend {
        return;
      }
      HandleResend(now);
      timerRunning := true;
    }
  }

  /** A first visit at `start`: the page stores the time and counts down; a minute later a resend
      is allowed and the interval stops; after the resend, as written, no interval is left, so the
      countdown stays at 60 and a resend is never allowed again while the page stays open. */
  method ResendFreezesCountdown(start: nat) returns (timeLeft: int, canResend: bool, timerRunning: bool)
    ensures timeLeft == ResendWindow && !canResend && !timerRunning
  {
    var storage := new Storage();
    var page := new OtpPage(storage);
    page.Mount(start);
    ParseIntOfNatToString(start);
    assert page.SavedTimestamp() == Some(start);
    page.Tick(start + ResendWindow);
    assert page.canResend && !page.timerRunning;
    page.HandleResend(start + ResendWindow + 1);
    timeLeft, canResend, timerRunning := page.timeLeft, page.canResend, page.timerRunning;
  }

  /** The same visit with the countdown restarted: one window after the resend, another resend is
      allowed. */
  method ResendRestartsCountdown(start: nat) returns (canResendAgain: bool)
    ensures canResendAgain
  {
    var storage := new Storage();
    var page := new OtpPage(storage);
    page.Mount(start);
    ParseIntOfNatToString(start);
    page.Tick(start + ResendWindow);
    var resentAt := start + ResendWindow + 1;
    page.HandleResendIntended(resentAt);
    ParseIntOfNatToString(resentAt);
    assert page.SavedTimestamp() == Some(resentAt);
    page.Tick(resentAt + ResendWindow);
    canResendAgain := page.canResend;
  }
}
