/** Digest and interest-push slots in a user's local time. Instants are microseconds since the
    epoch; a user's zone is a fixed offset. */
module Schedule {
  import opened Options

  const MINUTE := 60_000_000
  const HOUR := 60 * MINUTE
  const DAY := 24 * HOUR
  const MAX_AGE := 14 * DAY
  const INTEREST_PUSH_WINDOW := 3 * HOUR

  datatype Schedule = Schedule(weekdays: set<int>, hour: int, minute: int) {
    /** What `_parse_schedule` guarantees of its result. */
    ghost predicate Valid() {
      && (exists d :: d in weekdays) && (forall d :: d in weekdays ==> 0 <= d < 7)
      && 0 <= hour < 24 && 0 <= minute < 60
    }
  }

  const DEFAULT_SCHEDULE := Schedule({1, 4}, 9, 0)

  /** Python's string functions; `toInt` is None where `int` raises. */
  datatype Strings = Strings(strip: string -> string, lower: string -> string, toInt: string -> Option<int>)

  // _WEEKDAY_MAP
  function WeekdayOf(token: string): (d: Option<int>)
    ensures d.Some? ==> 0 <= d.value < 7 && token == DayName(d.value)
  {
    if token == "mon" then Some(0)
    else if token == "tue" then Some(1)
    else if token == "wed" then Some(2)
    else if token == "thu" then Some(3)
    else if token == "fri" then Some(4)
    else if token == "sat" then Some(5)
    else if token == "sun" then Some(6)
    else None
  }

  function DayName(d: int): string
    requires 0 <= d < 7
  {
    ["mon", "tue", "wed", "thu", "fri", "sat", "sun"][d]
  }

  /** Where `c` occurs first; the length when it does not. */
  function IndexOf(s: string, c: char): (at: nat)
    ensures at <= |s| && (at < |s| ==> s[at] == c) && forall i :: 0 <= i < at ==> s[i] != c
  {
    if s == "" || s[0] == c then 0 else 1 + IndexOf(s[1..], c)
  }

  function Split(s: string, c: char): (parts: seq<string>)
    ensures parts != []
    decreases |s|
  {
    var at := IndexOf(s, c);
    if at == |s| then [s] else [s[..at]] + Split(s[at + 1..], c)
  }

  /** The weekdays of the day tokens, blank ones apart; none when a token is unknown. */
  function Weekdays(py: Strings, tokens: seq<string>): (days: Option<set<int>>)
    ensures days.Some? ==> forall d :: d in days.value ==> 0 <= d < 7
  {
    if tokens == [] then Some({}) else
      var rest, token := Weekdays(py, tokens[1..]), py.strip(tokens[0]);
      if token == "" then rest
      else if rest.None? || WeekdayOf(py.lower(token)).None? then None
      else Some({WeekdayOf(py.lower(token)).value} + rest.value)
  }

  datatype Time = Time(hour: int, minute: int)

  /** A time of day in range, or none. */
  function ParseTime(py: Strings, time: string): (r: Option<Time>)
    ensures r.Some? ==> 0 <= r.value.hour < 24 && 0 <= r.value.minute < 60
  {
    var colon := IndexOf(time, ':');
    if colon == |time| then None else
      var hour, minute := py.toInt(py.strip(time[..colon])), py.toInt(py.strip(time[colon + 1..]));
      if hour.None? || minute.None? || !(0 <= hour.value <= 23) || !(0 <= minute.value <= 59) then None
      else Some(Time(hour.value, minute.value))
  }

  /** Blank tokens count for nothing; one that names no day, however it is written, makes the list unreadable;
      otherwise it is the set of the days named. */
  lemma {:induction false} WeekdaysAre(py: Strings, tokens: seq<string>)
    ensures var names := ["mon", "tue", "wed", "thu", "fri", "sat", "sun"];
      && (Weekdays(py, tokens).None? <==>
            exists t :: t in tokens && py.strip(t) != "" && py.lower(py.strip(t)) !in names)
      && (Weekdays(py, tokens).Some? ==> forall d :: d in Weekdays(py, tokens).value <==>
            0 <= d < 7 && exists t :: t in tokens && py.strip(t) != "" && py.lower(py.strip(t)) == names[d])
  {
    if tokens != [] {
      assert tokens == [tokens[0]] + tokens[1..];
      WeekdaysAre(py, tokens[1..]);
      WeekdayIs(py.lower(py.strip(tokens[0])));
    }
  }

  lemma WeekdayIs(token: string)
    ensures var names := ["mon", "tue", "wed", "thu", "fri", "sat", "sun"];
      && (WeekdayOf(token).None? <==> token !in names)
      && (forall d :: 0 <= d < 7 ==> (WeekdayOf(token) == Some(d) <==> token == names[d]))
  {
  }

  /** Any text at all gives a usable schedule; whatever does not parse gives the default one. */
  function ParseSchedule(py: Strings, spec: string): (r: Schedule)
    ensures r.Valid()
  {
    var at := IndexOf(spec, '@');
    if at == |spec| then DEFAULT_SCHEDULE else
      var days, time := Weekdays(py, Split(py.strip(spec[..at]), ',')), ParseTime(py, py.strip(spec[at + 1..]));
      if days.None? || days.value == {} || time.None? then DEFAULT_SCHEDULE else
        assert exists d :: d in days.value;
        Schedule(days.value, time.value.hour, time.value.minute)
  }

  function Join(days: seq<int>): string
    requires forall i :: 0 <= i < |days| ==> 0 <= days[i] < 7
  {
    if days == [] then ""
    else if |days| == 1 then DayName(days[0])
    else DayName(days[0]) + ("," + Join(days[1..]))
  }

  lemma {:induction false} FirstIndex(s: string, c: char, rest: string)
    requires c !in s
    ensures IndexOf(s + ([c] + rest), c) == |s| && IndexOf(s, c) == |s|
  {
    if s != "" {
      assert (s + ([c] + rest))[1..] == s[1..] + ([c] + rest);
      FirstIndex(s[1..], c, rest);
    }
  }

  lemma NameIsWord(d: int)
    requires 0 <= d < 7
    ensures WeekdayOf(DayName(d)) == Some(d) && DayName(d) != "" && ',' !in DayName(d)
  {
  }

  lemma SplitCons(name: string, c: char, rest: string)
    requires c !in name
    ensures Split(name, c) == [name] && Split(name + ([c] + rest), c) == [name] + Split(rest, c)
  {
    FirstIndex(name, c, rest);
    var all := name + ([c] + rest);
    assert all[..|name|] == name && all[|name| + 1..] == rest;
  }

  /** What the seven names need of the string functions. */
  ghost predicate ReadsNames(py: Strings) {
    forall d :: 0 <= d < 7 ==> py.strip(DayName(d)) == DayName(d) == py.lower(DayName(d))
  }

  lemma OneToken(py: Strings, d: int, tokens: seq<string>)
    requires ReadsNames(py) && 0 <= d < 7
    ensures var rest := Weekdays(py, tokens);
      Weekdays(py, [DayName(d)] + tokens) == if rest.None? then None else Some({d} + rest.value)
  {
    hide WeekdayOf;
    NameIsWord(d);
    assert ([DayName(d)] + tokens)[1..] == tokens;
  }

  lemma {:induction false} SplitsJoined(py: Strings, days: seq<int>)
    requires days != [] && ReadsNames(py) && forall i :: 0 <= i < |days| ==> 0 <= days[i] < 7
    ensures Weekdays(py, Split(Join(days), ',')) == Some(set d | d in days)
  {
    hide WeekdayOf, Split, Weekdays, ReadsNames, DayName;
    NameIsWord(days[0]);
    if |days| == 1 {
      SplitCons(DayName(days[0]), ',', "");
      NoTokens(py);
      OneToken(py, days[0], []);
      assert [DayName(days[0])] + [] == [DayName(days[0])];
      assert (set d | d in days) == {days[0]} + {};
    } else {
      SplitCons(DayName(days[0]), ',', Join(days[1..]));
      SplitsJoined(py, days[1..]);
      OneToken(py, days[0], Split(Join(days[1..]), ','));
      assert days == [days[0]] + days[1..];
      assert (set d | d in days) == {days[0]} + (set d | d in days[1..]);
    }
  }

  lemma NoTokens(py: Strings)
    ensures Weekdays(py, []) == Some({})
  {
  }

  /** A schedule written in the documented form, with any blanks around the sign, is read back as written. */
  lemma ParsesPrinted(py: Strings, days: seq<int>, hour: string, minute: string, left: string, right: string)
    requires days != [] && forall i :: 0 <= i < |days| ==> 0 <= days[i] < 7
    requires ReadsNames(py) && py.strip(hour) == hour && py.strip(minute) == minute && ':' !in hour
    requires py.strip(left) == Join(days) && '@' !in left && py.strip(right) == hour + ([':'] + minute)
    requires py.toInt(hour).Some? && 0 <= py.toInt(hour).value <= 23
    requires py.toInt(minute).Some? && 0 <= py.toInt(minute).value <= 59
    ensures ParseSchedule(py, left + (['@'] + right))
         == Schedule((set d | d in days), py.toInt(hour).value, py.toInt(minute).value)
  {
    hide ParseSchedule, Weekdays, Join, Split, IndexOf, ReadsNames, ParseTime;
    SplitsJoined(py, days);
    TimePrinted(py, hour, minute);
    SplitsAtSign(py, left, right);
    var all := set d | d in days;
    assert days[0] in all;
    assert Weekdays(py, Split(py.strip(left), ',')) == Some(all);
    assert all != {};
  }

  lemma SplitsAtSign(py: Strings, left: string, time: string)
    requires '@' !in left
    ensures var days, clock := Weekdays(py, Split(py.strip(left), ',')), ParseTime(py, py.strip(time));
      days.Some? && days.value != {} && clock.Some? ==>
        ParseSchedule(py, left + (['@'] + time)) == Schedule(days.value, clock.value.hour, clock.value.minute)
  {
    hide Weekdays, Split, IndexOf, ParseTime;
    FirstIndex(left, '@', time);
    var spec := left + (['@'] + time);
    assert spec[..|left|] == left && spec[|left| + 1..] == time;
  }

  lemma TimePrinted(py: Strings, hour: string, minute: string)
    requires py.strip(hour) == hour && py.strip(minute) == minute && ':' !in hour
    requires py.toInt(hour).Some? && 0 <= py.toInt(hour).value <= 23
    requires py.toInt(minute).Some? && 0 <= py.toInt(minute).value <= 59
    ensures ParseTime(py, hour + ([':'] + minute)) == Some(Time(py.toInt(hour).value, py.toInt(minute).value))
  {
    hide IndexOf;
    var time := hour + ([':'] + minute);
    FirstIndex(hour, ':', minute);
    assert time[..|hour|] == hour && time[|hour| + 1..] == minute;
  }

  /** A text that names no days or no time means Tuesday and Friday at nine. */
  lemma UnreadableIsDefault(py: Strings, spec: string, left: string, right: string)
    ensures '@' !in spec ==> ParseSchedule(py, spec) == Schedule({1, 4}, 9, 0)
    ensures var days := Weekdays(py, Split(py.strip(left), ','));
      '@' !in left && (days.None? || days.value == {} || ':' !in py.strip(right)) ==>
        ParseSchedule(py, left + (['@'] + right)) == Schedule({1, 4}, 9, 0)
  {
    hide Weekdays, Split;
    if '@' !in left {
      FirstIndex(left, '@', right);
      var text := left + (['@'] + right);
      assert text[..|left|] == left && text[|left| + 1..] == right;
    }
  }

  // ------------------------------------------------------------------ local time

  function LocalDay(t: int, offset: int): int { (t + offset) / DAY }

  function TimeOfDay(t: int, offset: int): int { (t + offset) % DAY }

  // The epoch was a Thursday; Monday is 0.
  function Weekday(day: int): int { (day + 3) % 7 }

  function LocalHour(t: int, offset: int): int { TimeOfDay(t, offset) / HOUR }

  function LocalMinute(t: int, offset: int): int { TimeOfDay(t, offset) % HOUR / MINUTE }

  datatype Status = InSlot | WrongWeekday | BeforeScheduledTime | AlreadySentToday

  function SlotStatus(offset: int, last: Option<int>, now: int, s: Schedule): Status {
    if Weekday(LocalDay(now, offset)) !in s.weekdays then WrongWeekday
    else if LocalHour(now, offset) < s.hour || (LocalHour(now, offset) == s.hour && LocalMinute(now, offset) < s.minute)
    then BeforeScheduledTime
    else if last.Some? && LocalDay(last.value, offset) == LocalDay(now, offset) then AlreadySentToday
    else InSlot
  }

  function SlotTime(s: Schedule): int { s.hour * HOUR + s.minute * MINUTE }

  function InterestPushDue(offset: int, last: Option<int>, now: int, s: Schedule): bool {
    SlotStatus(offset, last, now, s) == InSlot && TimeOfDay(now, offset) < SlotTime(s) + INTEREST_PUSH_WINDOW
  }

  /** The instant at which the slot of a local day opens. */
  function SlotOpens(day: int, offset: int, s: Schedule): int { day * DAY + SlotTime(s) - offset }

  // ------------------------------------------------------------------ results

  /** Comparing hour and minute is comparing with the opening instant: a slot lasts from its
      opening to the end of that local day, unless it has been spent. */
  lemma InSlotIff(offset: int, last: Option<int>, now: int, s: Schedule)
    requires s.Valid()
    ensures var day := LocalDay(now, offset);
      SlotStatus(offset, last, now, s) == InSlot <==>
        && Weekday(day) in s.weekdays
        && SlotOpens(day, offset, s) <= now
        && (last.Some? ==> LocalDay(last.value, offset) != day)
  {
    var tod := TimeOfDay(now, offset);
    assert now + offset == LocalDay(now, offset) * DAY + tod;
    var h, m := tod / HOUR, tod % HOUR / MINUTE;
    assert tod == h * HOUR + tod % HOUR;
    assert tod % HOUR == m * MINUTE + tod % HOUR % MINUTE;
  }

  /** Interest pushes go out on a scheduled day, between the slot time and three hours after it. */
  lemma InterestPushInWindow(offset: int, last: Option<int>, now: int, s: Schedule)
    requires s.Valid() && InterestPushDue(offset, last, now, s)
    ensures var opens := SlotOpens(LocalDay(now, offset), offset, s);
      opens <= now < opens + INTEREST_PUSH_WINDOW && Weekday(LocalDay(now, offset)) in s.weekdays
  {
    InSlotIff(offset, last, now, s);
    assert now + offset == LocalDay(now, offset) * DAY + TimeOfDay(now, offset);
  }

  lemma ScheduledDayWithinWeek(day: int, s: Schedule) returns (d: int)
    requires s.Valid()
    ensures day <= d < day + 7 && Weekday(d) in s.weekdays
  {
    var w :| w in s.weekdays;
    d := day + (w - Weekday(day)) % 7;
    assert Weekday(d) == w;
  }

  /** `last` is what non-forced sends leave behind: nothing, or an instant within a slot. */
  ghost predicate SentInSlot(last: Option<int>, offset: int, s: Schedule) {
    last.Some? ==> SlotOpens(LocalDay(last.value, offset), offset, s) <= last.value
  }

  ghost predicate SentBefore(last: Option<int>, t: int) { last.Some? ==> last.value < t }

  lemma OpenSlotIsUsable(offset: int, last: Option<int>, day: int, s: Schedule)
    requires s.Valid() && Weekday(day) in s.weekdays && SentInSlot(last, offset, s)
    requires SentBefore(last, SlotOpens(day, offset, s))
    ensures SlotStatus(offset, last, SlotOpens(day, offset, s), s) == InSlot
  {
    var opens := SlotOpens(day, offset, s);
    assert LocalDay(opens, offset) == day by { assert opens + offset == day * DAY + SlotTime(s); }
    InSlotIff(offset, last, opens, s);
  }

  /** Without forced sends every row meets two usable slots before it ages out: one opens within
      seven days of its creation, a second one within fourteen, while the row still is selected. */
  lemma TwoSlotsBeforeAgeOut(createdAt: int, offset: int, s: Schedule) returns (first: int, second: int)
    requires s.Valid()
    ensures first < second && Weekday(first) in s.weekdays && Weekday(second) in s.weekdays
    ensures createdAt <= SlotOpens(first, offset, s) <= createdAt + 7 * DAY
    ensures SlotOpens(second, offset, s) <= createdAt + 14 * DAY
    ensures createdAt >= SlotOpens(second, offset, s) - MAX_AGE
    ensures forall day, last ::
              (day == first || day == second) && SentInSlot(last, offset, s)
                && SentBefore(last, SlotOpens(day, offset, s))
              ==> SlotStatus(offset, last, SlotOpens(day, offset, s), s) == InSlot
  {
    var today := LocalDay(createdAt, offset);
    assert today * DAY <= createdAt + offset < (today + 1) * DAY;
    first := ScheduledDayWithinWeek(if createdAt <= SlotOpens(today, offset, s) then today else today + 1, s);
    second := ScheduledDayWithinWeek(first + 1, s);
    forall day, last |
        (day == first || day == second) && SentInSlot(last, offset, s) && SentBefore(last, SlotOpens(day, offset, s))
      ensures SlotStatus(offset, last, SlotOpens(day, offset, s), s) == InSlot
    {
      OpenSlotIsUsable(offset, last, day, s);
    }
  }
}
