/**
 * The countdown timer of src/App.js: the `mm:ss` display and the state the
 * Start, Pause and Reset buttons and the one-second interval update.
 */
module CountdownTimer {
  import opened Wrappers
  import opened Text

  /** `Math.max(0, n)` */
  function Clamp(n: int): nat {
    if n < 0 then 0 else n
  }

  /** `String(n).padStart(2, '0')` */
  function TwoDigits(n: nat): (r: string)
    ensures |r| >= 2
  {
    PadStart(NatToString(n), 2, '0')
  }

  /** `formatTime`: whole minutes and seconds, each padded with zeros to two digits. */
  function FormatTime(sec: int): string {
    var s := Clamp(sec);
    TwoDigits(s / 60) + ":" + TwoDigits(s % 60)
  }

  /** The padded field reads back as the number it shows. */
  lemma TwoDigitsValue(n: nat)
    ensures IsDigits(TwoDigits(n)) && ParseDecimal(TwoDigits(n)) == n
    ensures n < 100 ==> |TwoDigits(n)| == 2
  {
    var q := NatToString(n);
    assert TwoDigits(n) == Repeat('0', |TwoDigits(n)| - |q|) + q;
    ParseLeadingZeros(|TwoDigits(n)| - |q|, q);
    ParseNatToString(n);
  }

  /**
   * Reading a display `mm:ss` back into seconds: at least two digits of minutes,
   * a colon, exactly two digits of seconds below 60.
   */
  function ParseTime(r: string): Option<nat> {
    if |r| >= 5 && r[|r| - 3] == ':' && IsDigits(r[..|r| - 3]) && IsDigits(r[|r| - 2..])
       && ParseDecimal(r[|r| - 2..]) < 60
    then Some(ParseDecimal(r[..|r| - 3]) * 60 + ParseDecimal(r[|r| - 2..]))
    else None
  }

  lemma SplitAtColon(a: string, b: string)
    requires |b| == 2
    ensures var r := a + ":" + b;
      |r| == |a| + 3 && r[|r| - 3] == ':' && r[..|r| - 3] == a && r[|r| - 2..] == b
  {
    var r := a + ":" + b;
    assert r[..|r| - 3] == a;
    assert r[|r| - 2..] == b;
  }

  lemma ParseJoined(a: string, b: string)
    requires |a| >= 2 && IsDigits(a) && |b| == 2 && IsDigits(b) && ParseDecimal(b) < 60
    ensures ParseTime(a + ":" + b) == Some(ParseDecimal(a) * 60 + ParseDecimal(b))
  {
    var r := a + ":" + b;
    SplitAtColon(a, b);
    assert r[..|r| - 3] == a && r[|r| - 2..] == b && r[|r| - 3] == ':';
  }

  /**
   * The display reads back as the clamped number of seconds: minutes of at least
   * two digits, seconds of exactly two digits below 60, `mm * 60 + ss` the input.
   */
  lemma FormatTimeRoundTrip(sec: int)
    ensures ParseTime(FormatTime(sec)) == Some(Clamp(sec))
    ensures Clamp(sec) < 6000 ==> |FormatTime(sec)| == 5
  {
    var s := Clamp(sec);
    var m, q := s / 60, s % 60;
    assert m * 60 + q == s;
    TwoDigitsValue(m);
    TwoDigitsValue(q);
    ParseJoined(TwoDigits(m), TwoDigits(q));
  }

  /** A negative number of seconds shows as `00:00`. */
  lemma FormatTimeNegative(sec: int)
    requires sec < 0
    ensures FormatTime(sec) == "00:00"
  {
    assert Clamp(sec) == 0;
    assert NatToString(0) == "0";
    assert TwoDigits(0) == Repeat('0', 1) + "0" == "00";
    assert FormatTime(sec) == TwoDigits(0) + ":" + TwoDigits(0);
  }

  /** The updater the interval passes to `setRemaining` once a second. */
  function Countdown(prev: nat): nat {
    if prev <= 1 then 0 else prev - 1
  }

  /** What is left after `n` ticks from `remaining`. */
  function AfterTicks(remaining: nat, n: nat): nat {
    if n == 0 then remaining else AfterTicks(Countdown(remaining), n - 1)
  }

  /** Each tick takes exactly one second off until nothing is left, and never goes below zero. */
  lemma {:induction false} AfterTicksValue(remaining: nat, n: nat)
    ensures AfterTicks(remaining, n) == if n >= remaining then 0 else remaining - n
  {
    if n > 0 {
      AfterTicksValue(Countdown(remaining), n - 1);
    }
  }

  class Timer {
    var remaining: nat
    var running: bool

    /** A running timer always has time left. */
    predicate Valid()
      reads this
    {
      running ==> remaining > 0
    }

    /** The initial state: nothing left, not running. */
    constructor ()
      ensures Valid() && remaining == 0 && !running
    {
      remaining := 0;
      running := false;
    }

    /**
     * `start`: with nothing left, the clamped input is loaded; the timer then
     * runs unless both the input and what was left are zero. With time left it
     * resumes without reloading.
     */
    method Start(input: int)
      requires Valid()
      modifies this
      ensures Valid()
      ensures remaining == if old(remaining) == 0 then Clamp(input) else old(remaining)
      ensures running == (old(running) || Clamp(input) != 0 || old(remaining) != 0)
    {
      var sec := Clamp(input);
      // `remaining` in the handler is the value of the render that set it up
      var shown := remaining;
      if shown == 0 {
        remaining := sec;
      }
      if sec == 0 && shown == 0 {
        return;
      }
      running := true;
    }

    /** `pause`: stops the timer and leaves what is left. */
    method Pause()
      requires Valid()
      modifies this
      ensures Valid()
      ensures !running && remaining == old(remaining)
    {
      running := false;
    }

    /** `reset`: stops the timer and clears what is left. */
    method Reset()
      requires Valid()
      modifies this
      ensures Valid()
      ensures !running && remaining == 0
    {
      running := false;
      remaining := 0;
    }

    /**
     * One interval tick: at one second or less the timer reaches zero and stops;
     * otherwise exactly one second comes off.
     */
    method Tick()
      requires Valid()
      modifies this
      ensures Valid()
      ensures remaining == Countdown(old(remaining))
      ensures old(remaining) <= 1 ==> remaining == 0 && !running
      ensures old(remaining) > 1 ==> remaining == old(remaining) - 1 && running == old(running)
    {
      var prev := remaining;
      if prev <= 1 {
        running := false;
        remaining := 0;
      } else {
        remaining := prev - 1;
      }
    }

    /** The text the timer shows: it reads back as the seconds left. */
    function Display(): (r: string)
      reads this
      ensures ParseTime(r) == Some(remaining)
    {
      FormatTimeRoundTrip(remaining);
      FormatTime(remaining)
    }
  }
}
