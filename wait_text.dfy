/** The `m:ss` rendering of a wait time in seconds,
    `${Math.floor(w / 60)}:${(w % 60).toString().padStart(2, '0')}`, written
    the same way in src/components/NotificationSystem.tsx and in
    supabase/functions/send-notification/index.ts. */
module WaitText {
  import opened Common

  /** JavaScript's `a % b` for `b > 0`: the remainder takes the dividend's sign. */
  function JsRemainder(a: int, b: int): (r: int)
    requires b > 0
    ensures a >= 0 ==> 0 <= r < b && r == a % b
    ensures a < 0 ==> -b < r <= 0
  {
    if a >= 0 then a % b else -((-a) % b)
  }

  /** The remainder of a negated dividend is the negated remainder. */
  lemma JsRemainderOdd(a: int, b: int)
    requires b > 0
    ensures JsRemainder(-a, b) == -JsRemainder(a, b)
  {
  }

  /** The wait text. `Math.floor(w / 60)` is Dafny's `w / 60`, which rounds
      down for a positive divisor. */
  function FormatWait(w: int): string {
    IntText(w / 60) + ":" + PadStart(IntText(JsRemainder(w, 60)), 2, '0')
  }

  /** Two digits for the seconds below a minute. */
  lemma SecondsText(sec: nat)
    requires sec < 60
    ensures |PadStart(Decimal(sec), 2, '0')| == 2
    ensures AllDigits(PadStart(Decimal(sec), 2, '0'))
    ensures DigitsValue(PadStart(Decimal(sec), 2, '0')) == sec
  {
    DecimalShort(sec);
    DecimalValue(sec);
    var digits := Decimal(sec);
    var k: nat :| PadStart(digits, 2, '0') == Repeat('0', k) + digits;
    LeadingZeros(k, digits);
  }

  /** Reads a wait text back: minutes, a colon, then exactly two digits
      below 60. */
  function ParseWait(s: string): Option<nat> {
    if |s| < 4 || s[|s| - 3] != ':' then None
    else MinutesAndSeconds(ParseDigits(s[..|s| - 3]), s[|s| - 2..])
  }

  /** The value of a wait text once split at its colon. */
  function MinutesAndSeconds(minutes: Option<nat>, seconds: string): Option<nat> {
    if minutes.None? || |seconds| != 2 || !AllDigits(seconds) || DigitsValue(seconds) >= 60 then None
    else Some(60 * minutes.value + DigitsValue(seconds))
  }

  /** Minutes, a colon and two digits below 60 read back as a number of seconds. */
  lemma ParseWaitOf(m: string, sec: string)
    requires m != [] && AllDigits(m)
    requires |sec| == 2 && AllDigits(sec) && DigitsValue(sec) < 60
    ensures ParseWait(m + ":" + sec) == Some(60 * DigitsValue(m) + DigitsValue(sec))
  {
    var s := m + ":" + sec;
    assert s[..|s| - 3] == m;
    assert s[|s| - 2..] == sec;
  }

  /** For a wait of `w >= 0` seconds the text is the whole minutes, a colon and
      two digits of the remaining seconds; reading it back gives `w`. */
  lemma WaitRoundTrip(w: nat)
    ensures ParseWait(FormatWait(w)) == Some(w)
  {
    SecondsText(w % 60);
    DecimalValue(w / 60);
    ParseWaitOf(Decimal(w / 60), PadStart(Decimal(w % 60), 2, '0'));
  }
}
