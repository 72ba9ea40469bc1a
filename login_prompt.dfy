/** The device-code login panel (components/dataverse/LoginPrompt.tsx):
    what one answer of the poll route does, the once-a-second countdown
    tick, the countdown's `m:ss` rendering and the start of a login. The
    two intervals are explicit events; `pollActive` stands for the running
    poll interval and `successCalls` counts `onLoginSuccess` calls. */
module LoginPrompt {
  import opened Wrappers
  import Text

  const ExpiredMessage: string := "Code abgelaufen. Bitte erneut versuchen."
  const UnknownError: string := "Unbekannter Fehler"

  datatype DeviceCodeData = DeviceCodeData(userCode: string, deviceCode: string, verificationUrl: string,
                                           expiresIn: int, interval: int)

  datatype Prompt = Prompt(isLoading: bool, deviceCode: Option<DeviceCodeData>, error: Option<string>,
                           countdown: int, pollActive: bool, successCalls: nat)

  const Initial: Prompt := Prompt(false, None, None, 0, false, 0)

  // ---------------------------------------------------------------- polling

  /** One poll: the fetch or `json()` threw, or the body's `status` and
      `error` fields ("" when absent). */
  datatype PollAnswer = PollThrew | PollData(status: string, error: string)

  datatype PollOutcome = LoginSucceeded | CodeExpired | PollError(message: string) | KeepPolling

  /** The classification inside `poll`. */
  function ClassifyPoll(a: PollAnswer): (o: PollOutcome)
    ensures o == LoginSucceeded <==> a.PollData? && a.status == "success"
    ensures o == CodeExpired <==> a.PollData? && a.status == "expired"
    ensures o.PollError? <==> a.PollData? && a.status == "error"
    ensures o.PollError? ==> o.message == (if a.error != "" then a.error else UnknownError)
    ensures o == KeepPolling <==> a.PollThrew? || a.status !in {"success", "expired", "error"}
  {
    if a.PollThrew? then KeepPolling
    else if a.status == "success" then LoginSucceeded
    else if a.status == "expired" then CodeExpired
    else if a.status == "error" then PollError(if a.error != "" then a.error else UnknownError)
    else KeepPolling
  }

  /** The state after one tick of the poll interval. */
  function AfterPoll(p: Prompt, a: PollAnswer): (r: Prompt)
    ensures ClassifyPoll(a) == KeepPolling ==> r == p
    ensures ClassifyPoll(a) != KeepPolling ==> !r.pollActive
    ensures r.successCalls == p.successCalls + (if ClassifyPoll(a) == LoginSucceeded then 1 else 0)
    ensures ClassifyPoll(a) == LoginSucceeded ==> r.error == p.error && r.deviceCode == p.deviceCode
    ensures ClassifyPoll(a) == CodeExpired ==> r.deviceCode.None? && r.error == Some(ExpiredMessage)
    ensures ClassifyPoll(a).PollError? ==> r.error == Some(ClassifyPoll(a).message) && r.deviceCode == p.deviceCode
    ensures r.countdown == p.countdown && r.isLoading == p.isLoading
  {
    match ClassifyPoll(a)
    case LoginSucceeded => p.(successCalls := p.successCalls + 1, pollActive := false)
    case CodeExpired => p.(error := Some(ExpiredMessage), deviceCode := None, pollActive := false)
    case PollError(m) => p.(error := Some(m), pollActive := false)
    case KeepPolling => p
  }

  /** The poll interval over a sequence of answers; it stops at the first
      answer that ends it. */
  function PollRun(p: Prompt, answers: seq<PollAnswer>): (r: Prompt)
    decreases |answers|
  {
    if |answers| == 0 || !p.pollActive then p else PollRun(AfterPoll(p, answers[0]), answers[1..])
  }

  /** `onLoginSuccess` is called at most once per polling run. */
  lemma {:induction false} AtMostOneSuccess(p: Prompt, answers: seq<PollAnswer>)
    ensures PollRun(p, answers).successCalls <= p.successCalls + 1
    ensures !p.pollActive ==> PollRun(p, answers) == p
    decreases |answers|
  {
    if |answers| > 0 && p.pollActive {
      var q := AfterPoll(p, answers[0]);
      AtMostOneSuccess(q, answers[1..]);
      if ClassifyPoll(answers[0]) == LoginSucceeded {
        assert !q.pollActive;
      }
    }
  }

  /** Pending answers and failed fetches change nothing and keep polling. */
  lemma {:induction false} PendingKeepsPolling(p: Prompt, answers: seq<PollAnswer>)
    requires forall i :: 0 <= i < |answers| ==> ClassifyPoll(answers[i]) == KeepPolling
    ensures PollRun(p, answers) == p
    decreases |answers|
  {
    if |answers| > 0 && p.pollActive {
      PendingKeepsPolling(AfterPoll(p, answers[0]), answers[1..]);
    }
  }

  // ---------------------------------------------------------------- countdown

  /** The countdown interval exists only while a code is shown and time is left. */
  predicate TimerActive(p: Prompt) {
    p.deviceCode.Some? && p.countdown > 0
  }

  /** One second of the countdown: the last second clears the code and
      reports expiry, any other decrements. */
  function Tick(p: Prompt): (r: Prompt)
    ensures !TimerActive(p) ==> r == p
    ensures TimerActive(p) && p.countdown <= 1 ==> r.countdown == 0 && r.deviceCode.None? && r.error == Some(ExpiredMessage)
    ensures TimerActive(p) && p.countdown > 1 ==> r == p.(countdown := p.countdown - 1)
    ensures p.countdown >= 0 ==> r.countdown >= 0
  {
    if !TimerActive(p) then p
    else if p.countdown <= 1 then p.(countdown := 0, deviceCode := None, error := Some(ExpiredMessage))
    else p.(countdown := p.countdown - 1)
  }

  function Ticks(p: Prompt, n: nat): (r: Prompt)
    decreases n
  {
    if n == 0 then p else Ticks(Tick(p), n - 1)
  }

  /** A code shown with `n` seconds left expires after exactly `n` ticks,
      and the countdown never goes below zero. */
  lemma {:induction false} CountdownExpires(p: Prompt, n: nat)
    requires p.deviceCode.Some? && p.countdown == n && n > 0
    ensures Ticks(p, n).countdown == 0
    ensures Ticks(p, n).deviceCode.None?
    ensures Ticks(p, n).error == Some(ExpiredMessage)
    ensures forall k :: 0 <= k < n ==> Ticks(p, k).countdown == n - k && Ticks(p, k).deviceCode == p.deviceCode
    decreases n
  {
    if n > 1 {
      var q := Tick(p);
      CountdownExpires(q, n - 1);
      forall k | 0 <= k < n
        ensures Ticks(p, k).countdown == n - k && Ticks(p, k).deviceCode == p.deviceCode
      {
        if k > 0 {
          assert Ticks(p, k) == Ticks(q, k - 1);
        }
      }
    } else {
      assert Ticks(p, 1) == Ticks(Tick(p), 0);
    }
  }

  /** `formatCountdown`'s remainder: `%` in JavaScript keeps the sign of
      the dividend. */
  function JsRem60(s: int): (r: int)
    ensures s >= 0 ==> 0 <= r < 60 && r == s % 60
    ensures s < 0 ==> -60 < r <= 0
  {
    if s >= 0 then s % 60 else -((-s) % 60)
  }

  /** `formatCountdown`: minutes (floored), a colon, and the seconds padded
      to two digits. */
  function FormatCountdown(seconds: int): (r: string)
    ensures seconds >= 0 ==> |r| >= 4 && r[|r| - 3] == ':'
  {
    Text.IntToString(seconds / 60) + ":" + Text.PadStart2(Text.IntToString(JsRem60(seconds)))
  }

  /** For a non-negative countdown the text reads back as minutes and
      two-digit seconds that add up to the countdown. */
  lemma FormatCountdownReadsBack(seconds: nat)
    ensures exists m: string, ss: string ::
      FormatCountdown(seconds) == m + ":" + ss && |ss| == 2 && Text.AllDigits(m) && Text.AllDigits(ss) &&
      60 * Text.ParseNat(m) + Text.ParseNat(ss) == seconds
  {
    var m := Text.NatToString(seconds / 60);
    var d := Text.NatToString(seconds % 60);
    var ss := Text.PadStart2(d);
    Text.ParseNatToString(seconds / 60);
    Text.ParseNatToString(seconds % 60);
    if |d| == 1 {
      assert ss == "0" + d;
      assert ss[..1] == "0";
      assert Text.ParseNat(ss) == Text.ParseNat(d) by {
        assert ss[..|ss| - 1] == "0";
        assert Text.ParseNat("0") == 0 by {
          assert "0"[..0] == "";
        }
        assert d[..0] == "";
      }
    } else {
      assert |d| >= 2 by {
        assert seconds % 60 >= 10;
      }
      assert |d| == 2 by {
        var q := seconds % 60;
        assert Text.NatToString(q) == Text.NatToString(q / 10) + [Text.DigitChar(q % 10)];
      }
    }
    assert FormatCountdown(seconds) == m + ":" + ss;
  }

  lemma FormatCountdownExamples()
    ensures FormatCountdown(65) == "1:05"
    ensures FormatCountdown(900) == "15:00"
  {
  }

  // ---------------------------------------------------------------- login start

  /** The login route's answer: the fetch threw, a body with a (truthy)
      `error`, or the device code. */
  datatype LoginAnswer = LoginThrew(reason: string) | LoginFailed(error: string) | LoginIssued(code: DeviceCodeData)

  /** `handleLogin`: shows the route's error and starts nothing, or shows
      the code, sets the countdown to `expires_in` and starts polling. */
  function AfterLogin(p: Prompt, a: LoginAnswer): (r: Prompt)
    ensures !r.isLoading
    ensures a.LoginFailed? ==> r == p.(isLoading := false, error := Some(a.error))
    ensures a.LoginThrew? ==> r == p.(isLoading := false, error := Some(a.reason))
    ensures a.LoginIssued? ==> r.deviceCode == Some(a.code) && r.countdown == a.code.expiresIn && r.pollActive && r.error.None?
    ensures r.successCalls == p.successCalls
  {
    match a
    case LoginThrew(reason) => p.(isLoading := false, error := Some(reason))
    case LoginFailed(e) => p.(isLoading := false, error := Some(e))
    case LoginIssued(code) =>
      p.(isLoading := false, error := None, deviceCode := Some(code), countdown := code.expiresIn, pollActive := true)
  }

  /** A device code with positive lifetime starts the countdown. */
  lemma IssuedCodeStartsCountdown(p: Prompt, code: DeviceCodeData)
    requires code.expiresIn > 0
    ensures TimerActive(AfterLogin(p, LoginIssued(code)))
  {
  }

  /** The component's state. */
  class LoginPanel {
    var isLoading: bool
    var deviceCode: Option<DeviceCodeData>
    var error: Option<string>
    var countdown: int
    var pollActive: bool
    var successCalls: nat

    function Snapshot(): Prompt
      reads this
    {
      Prompt(isLoading, deviceCode, error, countdown, pollActive, successCalls)
    }

    constructor ()
      ensures Snapshot() == Initial
    {
      isLoading, deviceCode, error, countdown, pollActive, successCalls := false, None, None, 0, false, 0;
    }

    /** One tick of the poll interval; `done` clears the interval. */
    method Poll(a: PollAnswer) returns (done: bool)
      modifies this
      ensures Snapshot() == AfterPoll(old(Snapshot()), a)
      ensures done <==> ClassifyPoll(a) != KeepPolling
    {
      var outcome := ClassifyPoll(a);
      done := true;
      match outcome {
        case LoginSucceeded =>
          successCalls := successCalls + 1;
        case CodeExpired =>
          error := Some(ExpiredMessage);
          deviceCode := None;
        case PollError(m) =>
          error := Some(m);
        case KeepPolling =>
          done := false;
      }
      if done {
        pollActive := false;
      }
    }

    /** One second of the countdown interval. */
    method CountdownTick()
      modifies this
      ensures Snapshot() == Tick(old(Snapshot()))
    {
      if deviceCode.None? || countdown <= 0 {
        return;
      }
      if countdown <= 1 {
        deviceCode := None;
        error := Some(ExpiredMessage);
        countdown := 0;
      } else {
        countdown := countdown - 1;
      }
    }

    /** `handleLogin` once the login route has answered. */
    method HandleLogin(a: LoginAnswer)
      modifies this
      ensures Snapshot() == AfterLogin(old(Snapshot()), a)
    {
      isLoading := true;
      error := None;
      match a {
        case LoginThrew(reason) =>
          error := Some(reason);
        case LoginFailed(e) =>
          error := Some(e);
        case LoginIssued(code) =>
          deviceCode := Some(code);
          countdown := code.expiresIn;
          pollActive := true;
      }
      isLoading := false;
    }
  }
}
