/** The alarm form of the setup screen: its validation schema, its default
    values and the table of alarm sounds it offers. */
module AlarmSetup {

  import opened Types
  import opened JsString

  datatype AlarmSound = AlarmSound(name: string, url: string)

  /** The sounds offered in the alarm-sound select, in display order. */
  const AlarmSounds: seq<AlarmSound> := [
    AlarmSound("Classic Alarm", "https://actions.google.com/sounds/v1/alarms/alarm_clock.ogg"),
    AlarmSound("Digital Clock", "https://actions.google.com/sounds/v1/alarms/digital_clock.ogg"),
    AlarmSound("Bugle Call", "https://actions.google.com/sounds/v1/alarms/bugle_tune.ogg"),
    AlarmSound("Pleasant Bell", "https://actions.google.com/sounds/v1/alarms/medium_bell_ringing_near.ogg"),
    AlarmSound("Gentle Wake-up", "https://actions.google.com/sounds/v1/alarms/gentle_soft_ring.ogg")
  ]

  /** The select uses each URL as the React key of its item, so no two may be equal. */
  lemma AlarmSoundUrlsDistinct()
    ensures forall i, j :: 0 <= i < j < |AlarmSounds| ==> AlarmSounds[i].url != AlarmSounds[j].url
  {
  }

  // ---------------------------------------------------------------------
  // The wake-time regular expression, anchored at both ends: an hour
  // group, a colon and a minute group.

  predicate IsDigit(c: char) {
    '0' <= c <= '9'
  }

  /** The hour group matching all of `h`: one digit, a 0 or 1 and then a
      digit, or a 2 and then 0 to 3. */
  predicate HourMatches(h: string) {
    || (|h| == 1 && IsDigit(h[0]))
    || (|h| == 2 && '0' <= h[0] <= '1' && IsDigit(h[1]))
    || (|h| == 2 && h[0] == '2' && '0' <= h[1] <= '3')
  }

  /** The minute group matching all of `m`: 0 to 5 and then a digit. */
  predicate MinuteMatches(m: string) {
    |m| == 2 && '0' <= m[0] <= '5' && IsDigit(m[1])
  }

  /** The whole pattern: the hour group takes the first one or two
      characters, then comes the colon, then the minute group up to the end. */
  predicate TimeMatches(s: string) {
    exists k | 1 <= k <= 2 :: k < |s| && HourMatches(s[..k]) && s[k] == ':' && MinuteMatches(s[k + 1..])
  }

  function DigitChar(n: nat): char
    requires n < 10
  {
    ('0' as int + n) as char
  }

  function DigitValue(c: char): nat
    requires IsDigit(c)
  {
    c as int - '0' as int
  }

  function TwoDigits(n: nat): string
    requires n < 100
  {
    [DigitChar(n / 10), DigitChar(n % 10)]
  }

  /** `s` writes the clock time h:m, the hour with one digit or two and the
      minute with two. */
  predicate SpellsClockTime(s: string, h: nat, m: nat) {
    && h < 24 && m < 60
    && (|| s == TwoDigits(h) + ":" + TwoDigits(m)
        || (h < 10 && s == [DigitChar(h)] + ":" + TwoDigits(m)))
  }

  /** The pattern accepts exactly the spellings of the clock times 0:00 to 23:59. */
  lemma TimeMatchesClockTimes(s: string)
    ensures TimeMatches(s) <==> exists h: nat, m: nat :: SpellsClockTime(s, h, m)
  {
    if TimeMatches(s) {
      var k :| 1 <= k <= 2 && k < |s| && HourMatches(s[..k]) && s[k] == ':' && MinuteMatches(s[k + 1..]);
      var h, m := MatchedClockTime(s, k);
    }
    if exists h: nat, m: nat :: SpellsClockTime(s, h, m) {
      var h: nat, m: nat :| SpellsClockTime(s, h, m);
      ClockTimeMatches(s, h, m);
    }
  }

  /** Reading the hour and minute off a match. */
  lemma MatchedClockTime(s: string, k: nat) returns (h: nat, m: nat)
    requires 1 <= k <= 2 && k < |s| && HourMatches(s[..k]) && s[k] == ':' && MinuteMatches(s[k + 1..])
    ensures SpellsClockTime(s, h, m)
  {
    var mm := s[k + 1..];
    m := 10 * DigitValue(mm[0]) + DigitValue(mm[1]);
    assert TwoDigits(m) == mm;
    if k == 1 {
      h := DigitValue(s[0]);
      assert s == [DigitChar(h)] + ":" + TwoDigits(m);
    } else {
      h := 10 * DigitValue(s[0]) + DigitValue(s[1]);
      assert TwoDigits(h) == s[..2];
      assert s == TwoDigits(h) + ":" + TwoDigits(m);
    }
  }

  /** Every spelling of a clock time matches, with the colon after the hour digits. */
  lemma ClockTimeMatches(s: string, h: nat, m: nat)
    requires SpellsClockTime(s, h, m)
    ensures TimeMatches(s)
  {
    var k := if s == TwoDigits(h) + ":" + TwoDigits(m) then 2 else 1;
    assert s[k + 1..] == TwoDigits(m);
    assert MinuteMatches(s[k + 1..]);
    assert HourMatches(s[..k]);
  }

  /** Examples: a one-digit hour is accepted; an hour past 23, a one-digit
      minute and a minute past 59 are not. */
  lemma TimeExamples()
    ensures TimeMatches("7:05") && TimeMatches("07:00") && TimeMatches("23:59")
    ensures !TimeMatches("24:00") && !TimeMatches("7:5") && !TimeMatches("07:60")
  {
    assert HourMatches("7:05"[..1]);
    assert HourMatches("07:00"[..2]);
    assert HourMatches("23:59"[..2]);
  }

  // ---------------------------------------------------------------------
  // The schema `alarmSchema`

  /** The schema's minimum length n: at least n UTF-16 code units. */
  predicate MinLength(s: string, n: nat) {
    Utf16Length(s) >= n
  }

  /** Text of at least three characters always passes `min(3)`; text of
      fewer than three characters, none of them outside the Basic
      Multilingual Plane, never does. */
  lemma MinLengthThree(s: string)
    ensures |s| >= 3 ==> MinLength(s, 3)
    ensures |s| < 3 && (forall i :: 0 <= i < |s| ==> s[i] as int <= 0xFFFF) ==> !MinLength(s, 3)
  {
    if forall i :: 0 <= i < |s| ==> s[i] as int <= 0xFFFF {
      BmpLength(s);
    }
  }

  lemma {:induction false} BmpLength(s: string)
    requires forall i :: 0 <= i < |s| ==> s[i] as int <= 0xFFFF
    ensures Utf16Length(s) == |s|
  {
    if s != [] {
      BmpLength(s[1..]);
    }
  }

  /** The fields the schema checks, in the order it declares them. */
  datatype Field = Time | Home | Destination | WeatherLocation

  /** A field's position in the schema. */
  function Rank(f: Field): nat {
    match f
    case Time => 0
    case Home => 1
    case Destination => 2
    case WeatherLocation => 3
  }

  function Message(f: Field): string {
    match f
    case Time => "Invalid time format (HH:MM)"
    case Home => "Home location is required"
    case Destination => "Destination is required"
    case WeatherLocation => "Weather location is required"
  }

  predicate FieldValid(v: AlarmSettings, f: Field) {
    match f
    case Time => TimeMatches(v.time)
    case Home => MinLength(v.home, 3)
    case Destination => MinLength(v.destination, 3)
    case WeatherLocation => MinLength(v.weatherLocation, 3)
  }

  datatype Issue = Issue(field: Field, message: string)

  /** The schema's fields, in the order it declares them. */
  const SchemaFields: seq<Field> := [Time, Home, Destination, WeatherLocation]

  /** The schema checks every field. */
  lemma EveryFieldChecked()
    ensures forall f :: f in SchemaFields
  {
    forall f ensures f in SchemaFields {
      match f {
        case Time => assert SchemaFields[0] == f;
        case Home => assert SchemaFields[1] == f;
        case Destination => assert SchemaFields[2] == f;
        case WeatherLocation => assert SchemaFields[3] == f;
      }
    }
  }

  /** Fields in strictly increasing schema position. */
  predicate FieldsInOrder(fs: seq<Field>) {
    forall i, j :: 0 <= i < j < |fs| ==> Rank(fs[i]) < Rank(fs[j])
  }

  /** Issues in strictly increasing schema position: at most one per field,
      in the order the schema declares the fields. */
  predicate InSchemaOrder(issues: seq<Issue>) {
    forall i, j :: 0 <= i < j < |issues| ==> Rank(issues[i].field) < Rank(issues[j].field)
  }

  /** Checking the fields fs one after the other: one issue, with the
      field's message, for each field that fails. */
  function IssuesOf(v: AlarmSettings, fs: seq<Field>): (issues: seq<Issue>)
    ensures |issues| <= |fs|
  {
    if fs == [] then []
    else (if FieldValid(v, fs[0]) then [] else [Issue(fs[0], Message(fs[0]))]) + IssuesOf(v, fs[1..])
  }

  /** Each issue names a checked field that fails, with that field's
      message; each checked field that fails has its issue. */
  lemma {:induction false} IssuesOfFields(v: AlarmSettings, fs: seq<Field>)
    ensures forall i :: 0 <= i < |IssuesOf(v, fs)| ==>
      && IssuesOf(v, fs)[i].field in fs
      && !FieldValid(v, IssuesOf(v, fs)[i].field)
      && IssuesOf(v, fs)[i].message == Message(IssuesOf(v, fs)[i].field)
    ensures forall f :: f in fs && !FieldValid(v, f) ==> Issue(f, Message(f)) in IssuesOf(v, fs)
  {
    if fs != [] {
      IssuesOfFields(v, fs[1..]);
      var head := if FieldValid(v, fs[0]) then [] else [Issue(fs[0], Message(fs[0]))];
      var rest := IssuesOf(v, fs[1..]);
      assert IssuesOf(v, fs) == head + rest;
      forall i | 0 <= i < |IssuesOf(v, fs)|
        ensures IssuesOf(v, fs)[i].field in fs
      {
        if i >= |head| {
          assert IssuesOf(v, fs)[i] == rest[i - |head|];
          assert rest[i - |head|].field in fs[1..];
        }
      }
      forall f | f in fs && !FieldValid(v, f)
        ensures Issue(f, Message(f)) in IssuesOf(v, fs)
      {
        if f != fs[0] {
          assert f in fs[1..];
        }
      }
    }
  }

  /** In an ordered field list, the head comes before every later field. */
  lemma HeadFirst(fs: seq<Field>)
    requires fs != [] && FieldsInOrder(fs)
    ensures FieldsInOrder(fs[1..])
    ensures forall f :: f in fs[1..] ==> Rank(fs[0]) < Rank(f)
  {
    forall i, j | 0 <= i < j < |fs[1..]| ensures Rank(fs[1..][i]) < Rank(fs[1..][j]) {
      assert fs[1..][i] == fs[i + 1] && fs[1..][j] == fs[j + 1];
    }
    forall f | f in fs[1..] ensures Rank(fs[0]) < Rank(f) {
      var k :| 0 <= k < |fs[1..]| && fs[1..][k] == f;
      assert fs[1..][k] == fs[k + 1];
    }
  }

  /** At most one issue of position r before issues all after r stays ordered. */
  lemma OrderedCons(head: seq<Issue>, rest: seq<Issue>, r: nat)
    requires |head| <= 1 && (forall i :: 0 <= i < |head| ==> Rank(head[i].field) == r)
    requires InSchemaOrder(rest) && (forall j :: 0 <= j < |rest| ==> r < Rank(rest[j].field))
    ensures InSchemaOrder(head + rest)
  {
    forall i, j | 0 <= i < j < |head + rest|
      ensures Rank((head + rest)[i].field) < Rank((head + rest)[j].field)
    {
      if i < |head| {
        assert (head + rest)[i] == head[i] && (head + rest)[j] == rest[j - |head|];
      } else {
        assert (head + rest)[i] == rest[i - |head|] && (head + rest)[j] == rest[j - |head|];
      }
    }
  }

  /** Checking fields given in schema order reports issues in schema order. */
  lemma {:induction false} IssuesOfOrdered(v: AlarmSettings, fs: seq<Field>)
    requires FieldsInOrder(fs)
    ensures InSchemaOrder(IssuesOf(v, fs))
  {
    if fs != [] {
      HeadFirst(fs);
      IssuesOfOrdered(v, fs[1..]);
      IssuesOfFields(v, fs[1..]);
      var head := if FieldValid(v, fs[0]) then [] else [Issue(fs[0], Message(fs[0]))];
      var rest := IssuesOf(v, fs[1..]);
      assert forall j :: 0 <= j < |rest| ==> rest[j].field in fs[1..];
      OrderedCons(head, rest, Rank(fs[0]));
      assert IssuesOf(v, fs) == head + rest;
    }
  }

  /** Checking all the schema's fields: an issue for exactly the failing
      ones, in schema order. */
  lemma SchemaFieldsChecked(v: AlarmSettings)
    ensures forall f :: Issue(f, Message(f)) in IssuesOf(v, SchemaFields) <==> !FieldValid(v, f)
    ensures forall i :: 0 <= i < |IssuesOf(v, SchemaFields)| ==>
      IssuesOf(v, SchemaFields)[i].message == Message(IssuesOf(v, SchemaFields)[i].field)
    ensures InSchemaOrder(IssuesOf(v, SchemaFields))
    ensures IssuesOf(v, SchemaFields) == [] <==> forall f :: FieldValid(v, f)
  {
    var issues := IssuesOf(v, SchemaFields);
    IssuesOfFields(v, SchemaFields);
    IssuesOfOrdered(v, SchemaFields);
    EveryFieldChecked();
    assert issues != [] ==> !FieldValid(v, issues[0].field);
  }

  /** The issues the schema reports for a submitted form, one per failing
      field, in schema order; the form is submitted only when there are none. */
  function SchemaIssues(v: AlarmSettings): (issues: seq<Issue>)
    ensures forall f :: Issue(f, Message(f)) in issues <==> !FieldValid(v, f)
    ensures forall i :: 0 <= i < |issues| ==> issues[i].message == Message(issues[i].field)
    ensures |issues| <= 4
    ensures InSchemaOrder(issues)
    ensures issues == [] <==> forall f :: FieldValid(v, f)
  {
    SchemaFieldsChecked(v);
    IssuesOf(v, SchemaFields)
  }

  /** The values the form starts with. */
  const DefaultValues: AlarmSettings := AlarmSettings(
    "07:00",
    "1600 Amphitheatre Parkway, Mountain View, CA",
    "1 Market St, San Francisco, CA",
    AlarmSounds[0].url,
    "San Francisco, CA")

  /** The default form passes the schema as it stands. */
  lemma DefaultValuesAccepted()
    ensures SchemaIssues(DefaultValues) == []
  {
    TimeExamples();
  }
}
