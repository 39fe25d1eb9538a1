/** utils/EncryptedPreferencesManager.kt: typed preferences over a key-value
    store with per-key defaults, and the session/total usage-time accumulator.
    The encrypted file is an in-memory map; the clock is the parameter `now`
    (milliseconds); a `Long` is an unbounded `int`. */
module Preferences {
  import opened Text

  const KEY_USER_NAME := "user_name"
  const KEY_DARK_MODE := "dark_mode"
  const KEY_LANGUAGE := "language"
  const KEY_NOTIFICATION_VOLUME := "notification_volume"
  const KEY_LAST_ACCESS := "last_access"
  const KEY_LAST_LOCATION := "last_location"
  const KEY_TOTAL_USAGE_TIME := "total_usage_time"

  const DEFAULT_USER_NAME := ""
  const DEFAULT_DARK_MODE := false
  const DEFAULT_LANGUAGE := 0
  const DEFAULT_NOTIFICATION_VOLUME := 50
  const DEFAULT_LAST_ACCESS := "Nunca"
  const DEFAULT_LAST_LOCATION := "Desconocida"
  const DEFAULT_TOTAL_USAGE_TIME := 0

  /** The coordinates written on first use, as `Double.toString` renders them. */
  const DEFAULT_LATITUDE := "19.4326"
  const DEFAULT_LONGITUDE := "-99.1332"

  const MILLIS_PER_SECOND := 1000
  const MILLIS_PER_MINUTE := 60 * 1000
  const MILLIS_PER_HOUR := 60 * 60 * 1000

  /** A stored preference value, tagged with the `put…` call that wrote it. */
  datatype PrefValue =
    | StringValue(s: string)
    | BoolValue(b: bool)
    | IntValue(i: int)
    | LongValue(l: int)

  /** Every key holds the kind of value its setter writes. */
  predicate WellTyped(store: map<string, PrefValue>) {
    && (KEY_USER_NAME in store ==> store[KEY_USER_NAME].StringValue?)
    && (KEY_DARK_MODE in store ==> store[KEY_DARK_MODE].BoolValue?)
    && (KEY_LANGUAGE in store ==> store[KEY_LANGUAGE].IntValue?)
    && (KEY_NOTIFICATION_VOLUME in store ==> store[KEY_NOTIFICATION_VOLUME].IntValue?)
    && (KEY_LAST_ACCESS in store ==> store[KEY_LAST_ACCESS].StringValue?)
    && (KEY_LAST_LOCATION in store ==> store[KEY_LAST_LOCATION].StringValue?)
    && (KEY_TOTAL_USAGE_TIME in store ==> store[KEY_TOTAL_USAGE_TIME].LongValue?)
  }

  /** `"Lat: $latitude, Long: $longitude"`, with the two numbers already rendered. */
  function LocationText(latitude: string, longitude: string): (t: string)
    ensures t != DEFAULT_LAST_LOCATION
  {
    assert ("Lat: " + latitude + ", Long: " + longitude)[0] == 'L';
    "Lat: " + latitude + ", Long: " + longitude
  }

  // ---------------------------------------------------------------------------
  // The usage-time accumulator, as values

  /** The two session fields: `sessionStartTime` and `sessionAccumulatedTime`. */
  datatype UsageClock = UsageClock(start: int, accumulated: int)

  /** `getCurrentSessionTime()` at time `now`. */
  function SessionTime(c: UsageClock, now: int): int {
    c.accumulated + (now - c.start)
  }

  /** The fields after `resetSessionTime()` at time `now`: the time since the
      start is banked (when the start is positive) and the start moves to `now`. */
  function AfterReset(c: UsageClock, now: int): (c': UsageClock)
    ensures c'.start == now
    ensures c.start > 0 ==> SessionTime(c', now) == SessionTime(c, now)
    ensures c.start <= 0 ==> c'.accumulated == c.accumulated
  {
    UsageClock(now, if c.start > 0 then c.accumulated + (now - c.start) else c.accumulated)
  }

  /** The fields and stored total after `updateUsageTime()` at time `now`: a
      positive session time moves into the total; otherwise nothing changes. */
  function AfterFlush(c: UsageClock, total: int, now: int): (r: (UsageClock, int))
    ensures r.1 + SessionTime(r.0, now) == total + SessionTime(c, now)
    ensures SessionTime(c, now) > 0 ==> r.0 == UsageClock(now, 0) && r.1 == total + SessionTime(c, now)
    ensures SessionTime(c, now) <= 0 ==> r == (c, total)
  {
    var session := SessionTime(c, now);
    if session > 0 then (UsageClock(now, 0), total + session) else (c, total)
  }

  /** Two flushes at the same instant are one: the second finds nothing to move. */
  lemma FlushIdempotent(c: UsageClock, total: int, now: int)
    ensures var r := AfterFlush(c, total, now); AfterFlush(r.0, r.1, now) == r
  {
  }

  /** The activity flushes on pause and resets on resume. The time between the
      two is banked as session time, so time spent in the background is later
      added to the stored total. */
  lemma PauseThenResumeBanksBackgroundTime(c: UsageClock, total: int, pausedAt: int, resumedAt: int)
    requires pausedAt > 0 && SessionTime(c, pausedAt) > 0 && resumedAt > pausedAt
    ensures var paused := AfterFlush(c, total, pausedAt);
            var resumed := AfterReset(paused.0, resumedAt);
            resumed.accumulated == resumedAt - pausedAt
            && SessionTime(resumed, resumedAt) == resumedAt - pausedAt
            && AfterFlush(resumed, paused.1, resumedAt).1 == total + SessionTime(c, pausedAt) + (resumedAt - pausedAt)
  {
  }

  // ---------------------------------------------------------------------------
  // hh:mm:ss formatting

  /** Kotlin's `/` on `Long`: the quotient truncated toward zero. */
  function TruncDiv(a: int, b: int): int
    requires b > 0
  {
    if a >= 0 then a / b else -((-a) / b)
  }

  /** Kotlin's `%` on `Long`: the remainder takes the dividend's sign. */
  function TruncRem(a: int, b: int): int
    requires b > 0
  {
    a - TruncDiv(a, b) * b
  }

  datatype Hms = Hms(hours: int, minutes: int, seconds: int)

  function HmsMillis(d: Hms): int {
    d.hours * MILLIS_PER_HOUR + d.minutes * MILLIS_PER_MINUTE + d.seconds * MILLIS_PER_SECOND
  }

  /** The three numbers `getFormattedTotalUsageTime` prints for `totalMillis`. */
  function Decompose(totalMillis: int): (d: Hms)
    ensures totalMillis >= 0 ==> d.hours >= 0 && 0 <= d.minutes < 60 && 0 <= d.seconds < 60
    ensures totalMillis >= 0 ==> HmsMillis(d) <= totalMillis < HmsMillis(d) + MILLIS_PER_SECOND
  {
    var d := Hms(TruncDiv(totalMillis, MILLIS_PER_HOUR),
                 TruncDiv(TruncRem(totalMillis, MILLIS_PER_HOUR), MILLIS_PER_MINUTE),
                 TruncDiv(TruncRem(totalMillis, MILLIS_PER_MINUTE), MILLIS_PER_SECOND));
    DecomposeBounds(totalMillis, d);
    d
  }

  lemma DecomposeBounds(ms: int, d: Hms)
    requires d == Hms(TruncDiv(ms, MILLIS_PER_HOUR),
                      TruncDiv(TruncRem(ms, MILLIS_PER_HOUR), MILLIS_PER_MINUTE),
                      TruncDiv(TruncRem(ms, MILLIS_PER_MINUTE), MILLIS_PER_SECOND))
    ensures ms >= 0 ==> d.hours >= 0 && 0 <= d.minutes < 60 && 0 <= d.seconds < 60
    ensures ms >= 0 ==> HmsMillis(d) <= ms < HmsMillis(d) + MILLIS_PER_SECOND
  {
    if ms >= 0 {
      var h, rh := ms / 3600000, ms % 3600000;
      assert ms == h * 3600000 + rh && 0 <= rh < 3600000;
      assert TruncDiv(ms, MILLIS_PER_HOUR) == h && TruncRem(ms, MILLIS_PER_HOUR) == rh;
      var m, rm := rh / 60000, rh % 60000;
      assert rh == m * 60000 + rm && 0 <= rm < 60000;
      assert 0 <= m < 60;
      assert TruncDiv(rh, MILLIS_PER_MINUTE) == m;
      assert ms == (h * 60 + m) * 60000 + rm;
      assert ms % 60000 == rm;
      assert TruncRem(ms, MILLIS_PER_MINUTE) == rm;
      var s := rm / 1000;
      assert rm == s * 1000 + rm % 1000 && 0 <= rm % 1000 < 1000;
      assert TruncDiv(rm, MILLIS_PER_SECOND) == s;
      assert d == Hms(h, m, s);
    }
  }

  /** `"%02d"`: at least two characters, zero-padded. */
  function Pad2(n: int): string {
    if 0 <= n < 10 then "0" + IntToString(n) else IntToString(n)
  }

  /** `String.format("%02d:%02d:%02d", hours, minutes, seconds)`. */
  function FormatDuration(totalMillis: int): string {
    var d := Decompose(totalMillis);
    Pad2(d.hours) + ":" + Pad2(d.minutes) + ":" + Pad2(d.seconds)
  }

  lemma {:induction false} Pad2ReadsBack(n: nat)
    ensures AllDigits(Pad2(n)) && |Pad2(n)| >= 2
    ensures n < 100 ==> |Pad2(n)| == 2
    ensures DigitsValue(Pad2(n)) == n
  {
    if n < 10 {
      var p := Pad2(n);
      assert p[..|p| - 1] == "0";
      assert DigitsValue("0") == 0 by { assert "0"[..0] == []; }
    } else {
      DigitsValueOfNatToString(n);
      if n < 100 {
        assert NatToString(n) == NatToString(n / 10) + [DigitChar(n % 10)];
      }
    }
  }

  /** The formatted text names the duration to the second: its three fields read
      back as hours, minutes (< 60) and seconds (< 60) whose total is within one
      second below `totalMillis`. */
  lemma FormatDurationReadsBack(totalMillis: int)
    requires totalMillis >= 0
    ensures var f := FormatDuration(totalMillis);
      && |f| >= 8 && f[|f| - 6] == ':' && f[|f| - 3] == ':'
      && AllDigits(f[..|f| - 6]) && AllDigits(f[|f| - 5..|f| - 3]) && AllDigits(f[|f| - 2..])
      && var d := Hms(DigitsValue(f[..|f| - 6]), DigitsValue(f[|f| - 5..|f| - 3]), DigitsValue(f[|f| - 2..]));
         d.minutes < 60 && d.seconds < 60
         && HmsMillis(d) <= totalMillis < HmsMillis(d) + MILLIS_PER_SECOND
  {
    var d := Decompose(totalMillis);
    Pad2ReadsBack(d.hours);
    Pad2ReadsBack(d.minutes);
    Pad2ReadsBack(d.seconds);
    var ph, pm, ps := Pad2(d.hours), Pad2(d.minutes), Pad2(d.seconds);
    var f := FormatDuration(totalMillis);
    assert f == ph + ":" + pm + ":" + ps;
    assert f[..|f| - 6] == ph;
    assert f[|f| - 5..|f| - 3] == pm;
    assert f[|f| - 2..] == ps;
  }

  // ---------------------------------------------------------------------------
  // The manager object

  class EncryptedPreferencesManager {
    /** The contents of the encrypted preferences file. */
    var store: map<string, PrefValue>
    var sessionStartTime: int
    var sessionAccumulatedTime: int

    ghost predicate Valid()
      reads this
    {
      WellTyped(store)
    }

    /** The two session fields as a value. */
    function Clock(): UsageClock
      reads this
    {
      UsageClock(sessionStartTime, sessionAccumulatedTime)
    }

    /** A manager over an existing preferences file, created at time `now`. */
    constructor (persisted: map<string, PrefValue>, now: int)
      requires WellTyped(persisted)
      ensures Valid()
      ensures store == persisted && Clock() == UsageClock(now, 0)
    {
      store := persisted;
      sessionStartTime := now;
      sessionAccumulatedTime := 0;
    }

    function GetUserName(): (r: string)
      reads this
      requires Valid()
      ensures KEY_USER_NAME !in store ==> r == DEFAULT_USER_NAME
    {
      if KEY_USER_NAME in store then store[KEY_USER_NAME].s else DEFAULT_USER_NAME
    }

    function GetDarkMode(): (r: bool)
      reads this
      requires Valid()
      ensures KEY_DARK_MODE !in store ==> r == DEFAULT_DARK_MODE
    {
      if KEY_DARK_MODE in store then store[KEY_DARK_MODE].b else DEFAULT_DARK_MODE
    }

    function GetLanguage(): (r: int)
      reads this
      requires Valid()
      ensures KEY_LANGUAGE !in store ==> r == DEFAULT_LANGUAGE
    {
      if KEY_LANGUAGE in store then store[KEY_LANGUAGE].i else DEFAULT_LANGUAGE
    }

    function GetNotificationVolume(): (r: int)
      reads this
      requires Valid()
      ensures KEY_NOTIFICATION_VOLUME !in store ==> r == DEFAULT_NOTIFICATION_VOLUME
    {
      if KEY_NOTIFICATION_VOLUME in store then store[KEY_NOTIFICATION_VOLUME].i else DEFAULT_NOTIFICATION_VOLUME
    }

    function GetLastAccess(): (r: string)
      reads this
      requires Valid()
      ensures KEY_LAST_ACCESS !in store ==> r == DEFAULT_LAST_ACCESS
    {
      if KEY_LAST_ACCESS in store then store[KEY_LAST_ACCESS].s else DEFAULT_LAST_ACCESS
    }

    function GetLastLocation(): (r: string)
      reads this
      requires Valid()
      ensures KEY_LAST_LOCATION !in store ==> r == DEFAULT_LAST_LOCATION
    {
      if KEY_LAST_LOCATION in store then store[KEY_LAST_LOCATION].s else DEFAULT_LAST_LOCATION
    }

    function GetTotalUsageTime(): (r: int)
      reads this
      requires Valid()
      ensures KEY_TOTAL_USAGE_TIME !in store ==> r == DEFAULT_TOTAL_USAGE_TIME
    {
      if KEY_TOTAL_USAGE_TIME in store then store[KEY_TOTAL_USAGE_TIME].l else DEFAULT_TOTAL_USAGE_TIME
    }

    method SaveUserName(userName: string)
      requires Valid()
      modifies this
      ensures Valid() && GetUserName() == userName
      ensures store == old(store)[KEY_USER_NAME := StringValue(userName)] && Clock() == old(Clock())
    {
      store := store[KEY_USER_NAME := StringValue(userName)];
    }

    method SaveDarkMode(isDarkMode: bool)
      requires Valid()
      modifies this
      ensures Valid() && GetDarkMode() == isDarkMode
      ensures store == old(store)[KEY_DARK_MODE := BoolValue(isDarkMode)] && Clock() == old(Clock())
    {
      store := store[KEY_DARK_MODE := BoolValue(isDarkMode)];
    }

    method SaveLanguage(languageIndex: int)
      requires Valid()
      modifies this
      ensures Valid() && GetLanguage() == languageIndex
      ensures store == old(store)[KEY_LANGUAGE := IntValue(languageIndex)] && Clock() == old(Clock())
    {
      store := store[KEY_LANGUAGE := IntValue(languageIndex)];
    }

    method SaveNotificationVolume(volume: int)
      requires Valid()
      modifies this
      ensures Valid() && GetNotificationVolume() == volume
      ensures store == old(store)[KEY_NOTIFICATION_VOLUME := IntValue(volume)] && Clock() == old(Clock())
    {
      store := store[KEY_NOTIFICATION_VOLUME := IntValue(volume)];
    }

    /** `updateLastAccess()`: the current date, already formatted, is stored. */
    method UpdateLastAccess(formattedNow: string)
      requires Valid()
      modifies this
      ensures Valid() && GetLastAccess() == formattedNow
      ensures store == old(store)[KEY_LAST_ACCESS := StringValue(formattedNow)] && Clock() == old(Clock())
    {
      store := store[KEY_LAST_ACCESS := StringValue(formattedNow)];
    }

    /** `saveLastLocation(latitude, longitude)`, the numbers already rendered. */
    method SaveLastLocation(latitude: string, longitude: string)
      requires Valid()
      modifies this
      ensures Valid() && GetLastLocation() == LocationText(latitude, longitude)
      ensures store == old(store)[KEY_LAST_LOCATION := StringValue(LocationText(latitude, longitude))]
      ensures Clock() == old(Clock())
    {
      store := store[KEY_LAST_LOCATION := StringValue(LocationText(latitude, longitude))];
    }

    /** `initializeDefaultLocationIfNeeded()`: writes the fixed coordinates only
        while the location still reads as the default; afterwards it never reads
        as the default again, so a second call changes nothing. */
    method InitializeDefaultLocationIfNeeded()
      requires Valid()
      modifies this
      ensures Valid() && GetLastLocation() != DEFAULT_LAST_LOCATION
      ensures old(GetLastLocation()) == DEFAULT_LAST_LOCATION
          ==> store == old(store)[KEY_LAST_LOCATION := StringValue(LocationText(DEFAULT_LATITUDE, DEFAULT_LONGITUDE))]
      ensures old(GetLastLocation()) != DEFAULT_LAST_LOCATION ==> store == old(store)
      ensures Clock() == old(Clock())
    {
      if GetLastLocation() == DEFAULT_LAST_LOCATION {
        SaveLastLocation(DEFAULT_LATITUDE, DEFAULT_LONGITUDE);
      }
    }

    method SaveTotalUsageTime(timeMillis: int)
      requires Valid()
      modifies this
      ensures Valid() && GetTotalUsageTime() == timeMillis
      ensures store == old(store)[KEY_TOTAL_USAGE_TIME := LongValue(timeMillis)] && Clock() == old(Clock())
    {
      store := store[KEY_TOTAL_USAGE_TIME := LongValue(timeMillis)];
    }

    /** `getCurrentSessionTime()` at time `now`. */
    function GetCurrentSessionTime(now: int): (r: int)
      reads this
      ensures r == SessionTime(Clock(), now)
    {
      sessionAccumulatedTime + (now - sessionStartTime)
    }

    /** `resetSessionTime()` at time `now`. With a positive start, the stored
        total plus the current session time is the same before and after. */
    method ResetSessionTime(now: int)
      requires Valid()
      modifies this
      ensures Valid() && store == old(store)
      ensures Clock() == AfterReset(old(Clock()), now)
      ensures old(sessionStartTime) > 0
          ==> GetTotalUsageTime() + GetCurrentSessionTime(now) == old(GetTotalUsageTime() + GetCurrentSessionTime(now))
    {
      var currentTime := now;
      if sessionStartTime > 0 {
        sessionAccumulatedTime := sessionAccumulatedTime + (currentTime - sessionStartTime);
      }
      sessionStartTime := currentTime;
    }

    /** `updateUsageTime()` at time `now`: moves a positive session time into the
        stored total; the sum of the two is the same before and after. */
    method UpdateUsageTime(now: int)
      requires Valid()
      modifies this
      ensures Valid()
      ensures (Clock(), GetTotalUsageTime()) == AfterFlush(old(Clock()), old(GetTotalUsageTime()), now)
      ensures old(GetCurrentSessionTime(now)) > 0
          ==> store == old(store)[KEY_TOTAL_USAGE_TIME := LongValue(GetTotalUsageTime())]
      ensures old(GetCurrentSessionTime(now)) <= 0 ==> store == old(store)
      ensures GetTotalUsageTime() + GetCurrentSessionTime(now) == old(GetTotalUsageTime() + GetCurrentSessionTime(now))
    {
      var currentTime := now;
      var sessionTime := sessionAccumulatedTime + (currentTime - sessionStartTime);
      if sessionTime > 0 {
        var totalTimeMillis := GetTotalUsageTime() + sessionTime;
        SaveTotalUsageTime(totalTimeMillis);
        sessionStartTime := currentTime;
        sessionAccumulatedTime := 0;
      }
    }

    /** `getFormattedTotalUsageTime()` at time `now`: the stored total plus the
        running session, as hh:mm:ss. */
    function GetFormattedTotalUsageTime(now: int): (r: string)
      reads this
      requires Valid()
      ensures r == FormatDuration(GetTotalUsageTime() + GetCurrentSessionTime(now))
    {
      FormatDuration(GetTotalUsageTime() + GetCurrentSessionTime(now))
    }
  }
}
