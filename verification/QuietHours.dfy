/** Quiet hours: how long a message waits for the window [start, end) of the local day to be over. */
module QuietHours {
  const DAY: int := 24 * 60 * 60

  /** JavaScript's `%`: the remainder takes the sign of the dividend. */
  function JsRemainder(a: int, b: int): int
    requires b > 0
  {
    if a >= 0 then a % b else -((-a) % b)
  }

  /** A configured time of day: "HH:MM" on a 24-hour clock. */
  predicate ValidTime(s: string) {
    && |s| == 5 && s[2] == ':'
    && (forall i :: 0 <= i < 5 && i != 2 ==> '0' <= s[i] <= '9')
    && TwoDigits(s, 0) < 24 && TwoDigits(s, 3) < 60
  }

  function TwoDigits(s: string, i: nat): int
    requires i + 2 <= |s|
  {
    10 * (s[i] as int - '0' as int) + (s[i + 1] as int - '0' as int)
  }

  function SecondsOfDay(s: string): int
    requires ValidTime(s)
  {
    TwoDigits(s, 0) * 3600 + TwoDigits(s, 3) * 60
  }

  /** Distinct configured times are distinct seconds of the day. */
  lemma SecondsOfDayInjective(s: string, s': string)
    requires ValidTime(s) && ValidTime(s')
    ensures 0 <= SecondsOfDay(s) < DAY
    ensures SecondsOfDay(s) == SecondsOfDay(s') <==> s == s'
  {
    if SecondsOfDay(s) == SecondsOfDay(s') {
      assert TwoDigits(s, 0) == TwoDigits(s', 0) && TwoDigits(s, 3) == TwoDigits(s', 3);
      assert s[0] == s'[0] && s[1] == s'[1] && s[3] == s'[3] && s[4] == s'[4];
    }
  }

  function TwoDigitText(n: nat): string
    requires n < 100
  {
    ['0' + (n / 10) as char, '0' + (n % 10) as char]
  }

  /** Every minute of the day, written as a time, is read as its distance from midnight. */
  lemma MinutesAreRead(hour: nat, minute: nat)
    requires hour < 24 && minute < 60
    ensures
      var s := TwoDigitText(hour) + ":" + TwoDigitText(minute);
      ValidTime(s) && SecondsOfDay(s) == (60 * hour + minute) * 60
  {
    var s := TwoDigitText(hour) + ":" + TwoDigitText(minute);
    assert s[0] == TwoDigitText(hour)[0] && s[1] == TwoDigitText(hour)[1] && s[2] == ':';
    assert s[3] == TwoDigitText(minute)[0] && s[4] == TwoDigitText(minute)[1];
  }

  predicate Quiet(t: int, start: int, end: int) {
    if start < end then start <= t < end else t >= start || t < end
  }

  /** Quiet `k` seconds after second-of-day `t`. */
  predicate QuietAfter(t: int, k: int, start: int, end: int) {
    Quiet((t + k) % DAY, start, end)
  }

  /** The delay in milliseconds at local second-of-day `t`. */
  function DelayMs(t: int, startTime: string, endTime: string): int
    requires ValidTime(startTime) && ValidTime(endTime)
  {
    var start, end := SecondsOfDay(startTime), SecondsOfDay(endTime);
    if !Quiet(t, start, end) then 0
    else JsRemainder(JsRemainder(end - t, DAY) + DAY, DAY) * 1000
  }

  /** The window as an arc of the circular day, over midnight or not. */
  lemma QuietIsAnArc(t: int, start: int, end: int)
    requires 0 <= t < DAY && 0 <= start < DAY && 0 <= end < DAY && start != end
    ensures Quiet(t, start, end) <==> (t - start) % DAY < (end - start) % DAY
  {
    ModOfDifference(t, start);
    ModOfDifference(end, start);
  }

  lemma ModOfDifference(a: int, b: int)
    requires 0 <= a < DAY && 0 <= b < DAY
    ensures (a - b) % DAY == if a >= b then a - b else a - b + DAY
  {
    if a < b { assert (a - b) % DAY == (a - b + DAY) % DAY; }
  }

  /** The truncated remainders compute the true distance forward to `end`. */
  lemma DelayIsDistance(t: int, end: int)
    requires 0 <= t < DAY && 0 <= end < DAY
    ensures JsRemainder(JsRemainder(end - t, DAY) + DAY, DAY) == (end - t) % DAY
  {
    ModOfDifference(end, t);
    if end < t {
      assert (t - end) % DAY == t - end;
    } else {
      assert (end - t + DAY) % DAY == end - t;
    }
  }

  /**
   The delay is the least one that leaves the window: zero exactly outside it, under a day, it
   lands on `end` (outside), and every shorter whole-second delay is still inside.
   */
  lemma DelayIsLeastExit(t: int, startTime: string, endTime: string)
    requires 0 <= t < DAY
    requires ValidTime(startTime) && ValidTime(endTime) && startTime != endTime
    ensures
      var start, end := SecondsOfDay(startTime), SecondsOfDay(endTime);
      var delay := DelayMs(t, startTime, endTime);
      && 0 <= delay < DAY * 1000 && delay % 1000 == 0
      && (delay == 0 <==> !Quiet(t, start, end))
      && (delay > 0 ==> (t + delay / 1000) % DAY == end)
      && !Quiet((t + delay / 1000) % DAY, start, end)
      && forall k :: 0 <= k < delay / 1000 ==> QuietAfter(t, k, start, end)
  {
    SecondsOfDayInjective(startTime, endTime);
    SecondsOfDayInjective(endTime, startTime);
    DelaySeconds(t, SecondsOfDay(startTime), SecondsOfDay(endTime));
  }

  /** The same in seconds. */
  lemma DelaySeconds(t: int, start: int, end: int)
    requires 0 <= t < DAY && 0 <= start < DAY && 0 <= end < DAY && start != end
    ensures Quiet(t, start, end) ==>
      var seconds := JsRemainder(JsRemainder(end - t, DAY) + DAY, DAY);
      && 0 < seconds < DAY
      && (t + seconds) % DAY == end
      && forall k :: 0 <= k < seconds ==> QuietAfter(t, k, start, end)
    ensures !Quiet(end, start, end) && t % DAY == t
  {
    if Quiet(t, start, end) {
      DelayIsDistance(t, end);
      ModOfDifference(end, t);
      var seconds := (end - t) % DAY;
      WrapAround(t, seconds);
      forall k | 0 <= k < seconds ensures QuietAfter(t, k, start, end) {
        WrapAround(t, k);
      }
    }
  }

  lemma WrapAround(t: int, k: int)
    requires 0 <= t < DAY && 0 <= k < DAY
    ensures (t + k) % DAY == if t + k < DAY then t + k else t + k - DAY
  {
  }
}
