/**
 * The business day (src/state/business-window.ts): four HH:mm boundaries that cut the Frankfurt
 * day into windows. The source compares these texts as texts; the time of day is an input here.
 */
module BusinessDays {
  import opened Wrappers
  import opened OrderedMaps
  import opened Decimals
  import opened Domain
  import opened Ledgers
  import opened MemoryStores

  /** `([01]\d|2[0-3]):[0-5]\d` */
  predicate IsTime(s: string) {
    && |s| == 5 && s[2] == ':'
    && IsDigit(s[0]) && IsDigit(s[1]) && IsDigit(s[3]) && IsDigit(s[4])
    && (s[0] <= '1' || (s[0] == '2' && s[1] <= '3')) && s[3] <= '5'
  }

  /** `\d{4}-\d{2}-\d{2}` */
  predicate IsDate(s: string) {
    && |s| == 10 && s[4] == '-' && s[7] == '-'
    && AllDigits(s[..4]) && AllDigits(s[5..7]) && AllDigits(s[8..])
  }

  function Value(c: char): int {
    c as int - '0' as int
  }

  /** Minutes since midnight. */
  function Minutes(s: string): int
    requires IsTime(s)
  {
    (10 * Value(s[0]) + Value(s[1])) * 60 + 10 * Value(s[3]) + Value(s[4])
  }

  function TwoDigits(n: nat): string
    requires n < 100
  {
    [DigitOf(n / 10), DigitOf(n % 10)]
  }

  /** The times are the hours of a day and the minutes of an hour, two digits each, and count minutes so. */
  lemma TimesExactly(s: string)
    ensures IsTime(s) <==>
      exists h: nat, m: nat :: h < 24 && m < 60 && s == TwoDigits(h) + ":" + TwoDigits(m)
    ensures forall h: nat, m: nat ::
      h < 24 && m < 60 && s == TwoDigits(h) + ":" + TwoDigits(m) ==> IsTime(s) && Minutes(s) == 60 * h + m
  {
    if IsTime(s) {
      var h: nat, m: nat := 10 * Value(s[0]) + Value(s[1]), 10 * Value(s[3]) + Value(s[4]);
      assert h / 10 == Value(s[0]) && h % 10 == Value(s[1]) && m / 10 == Value(s[3]) && m % 10 == Value(s[4]);
      assert s == TwoDigits(h) + ":" + TwoDigits(m);
    }
  }

  /** The dates are four, two and two digits with dashes between them. */
  lemma DatesExactly(s: string)
    ensures IsDate(s) <==> exists y, m, d ::
      AllDigits(y + m + d) && |y| == 4 && |m| == |d| == 2 && s == y + "-" + m + "-" + d
  {
    if IsDate(s) {
      var y, m, d := s[..4], s[5..7], s[8..];
      assert s == y + "-" + m + "-" + d;
      assert AllDigits(y + m + d);
    }
    forall y, m, d | AllDigits(y + m + d) && |y| == 4 && |m| == |d| == 2 && s == y + "-" + m + "-" + d
      ensures IsDate(s)
    {
      forall i | 0 <= i < 8 ensures IsDigit((y + m + d)[i]) {}
      assert s[..4] == (y + m + d)[..4] && s[5..7] == (y + m + d)[4..6] && s[8..] == (y + m + d)[6..];
    }
  }

  /** `a < b` on texts: by the first character that differs. */
  predicate Before(a: string, b: string) {
    b != [] && (a == [] || a[0] < b[0] || (a[0] == b[0] && Before(a[1..], b[1..])))
  }

  lemma BeforeAt(a: string, b: string, i: nat)
    requires i < |a| && i < |b| && a[..i] == b[..i] && a[i] != b[i]
    ensures Before(a, b) <==> a[i] < b[i]
    decreases i
  {
    if i != 0 {
      assert a[0] == a[..i][0] == b[..i][0] == b[0];
      assert a[1..][..i - 1] == a[..i][1..] == b[..i][1..] == b[1..][..i - 1];
      BeforeAt(a[1..], b[1..], i - 1);
    }
  }

  lemma {:induction false} NotBeforeItself(a: string)
    ensures !Before(a, a)
  {
    if a != [] { NotBeforeItself(a[1..]); }
  }

  /** On HH:mm, the order of the texts is the order of the minutes. */
  lemma TextOrderIsMinuteOrder(a: string, b: string)
    requires IsTime(a) && IsTime(b)
    ensures Before(a, b) <==> Minutes(a) < Minutes(b)
    ensures a == b <==> Minutes(a) == Minutes(b)
  {
    if a[0] != b[0] {
      BeforeAt(a, b, 0);
    } else if a[1] != b[1] {
      BeforeAt(a, b, 1);
    } else if a[3] != b[3] {
      BeforeAt(a, b, 3);
    } else if a[4] != b[4] {
      BeforeAt(a, b, 4);
    } else {
      assert a == b;
      NotBeforeItself(a);
    }
  }

  // ----- the windows -----

  datatype WindowName = START_OF_DAY | OPEN_FOR_ALL | END_OF_DAY | CLOSED

  const WINDOW_SEQUENCE: seq<WindowName> := [START_OF_DAY, OPEN_FOR_ALL, END_OF_DAY, CLOSED]

  function PlaceOf(name: WindowName): (i: nat)
    ensures i < |WINDOW_SEQUENCE| && WINDOW_SEQUENCE[i] == name
  {
    match name case START_OF_DAY => 0 case OPEN_FOR_ALL => 1 case END_OF_DAY => 2 case CLOSED => 3
  }

  function NextWindowName(name: WindowName): WindowName {
    WINDOW_SEQUENCE[(PlaceOf(name) + 1) % |WINDOW_SEQUENCE|]
  }

  datatype WindowInfo = WindowInfo(name: WindowName, nextName: WindowName, startTime: string)

  function StartTimeOf(day: BusinessDay, name: WindowName): string {
    match name
    case START_OF_DAY => day.sodStart
    case OPEN_FOR_ALL => day.ofaStart
    case END_OF_DAY => day.ofaEnd
    case CLOSED => day.eodEnd
  }

  /** The daily cycle of windows. */
  function BusinessWindows(day: BusinessDay): seq<WindowInfo> {
    seq(|WINDOW_SEQUENCE|, i requires 0 <= i < |WINDOW_SEQUENCE| =>
      WindowInfo(WINDOW_SEQUENCE[i], NextWindowName(WINDOW_SEQUENCE[i]), StartTimeOf(day, WINDOW_SEQUENCE[i])))
  }

  datatype CurrentWindow = CurrentWindow(name: WindowName, startTime: string, endTime: string, nextName: WindowName)

  function WindowAt(day: BusinessDay, t: string): CurrentWindow {
    if Before(t, day.sodStart) then CurrentWindow(CLOSED, day.eodEnd, day.sodStart, NextWindowName(CLOSED))
    else if Before(t, day.ofaStart) then
      CurrentWindow(START_OF_DAY, day.sodStart, day.ofaStart, NextWindowName(START_OF_DAY))
    else if Before(t, day.ofaEnd) then
      CurrentWindow(OPEN_FOR_ALL, day.ofaStart, day.ofaEnd, NextWindowName(OPEN_FOR_ALL))
    else if Before(t, day.eodEnd) then CurrentWindow(END_OF_DAY, day.ofaEnd, day.eodEnd, NextWindowName(END_OF_DAY))
    else CurrentWindow(CLOSED, day.eodEnd, day.sodStart, NextWindowName(CLOSED))
  }

  /** Four HH:mm boundaries in order. */
  predicate Ordered(day: BusinessDay) {
    && IsTime(day.sodStart) && IsTime(day.ofaStart) && IsTime(day.ofaEnd) && IsTime(day.eodEnd)
    && Minutes(day.sodStart) <= Minutes(day.ofaStart) <= Minutes(day.ofaEnd) <= Minutes(day.eodEnd)
  }

  /** The minute `m` lies in the half-open window from its start to the start of the next; Closed wraps. */
  predicate Contains(day: BusinessDay, name: WindowName, m: int)
    requires Ordered(day)
  {
    var start, end := Minutes(StartTimeOf(day, name)), Minutes(StartTimeOf(day, NextWindowName(name)));
    if name == CLOSED then start <= m || m < end else start <= m < end
  }

  lemma TheCycle()
    ensures NextWindowName(START_OF_DAY) == OPEN_FOR_ALL && NextWindowName(OPEN_FOR_ALL) == END_OF_DAY
    ensures NextWindowName(END_OF_DAY) == CLOSED && NextWindowName(CLOSED) == START_OF_DAY
  {
  }

  /** Four boundaries in order and a minute: the windows between them, one for each. */
  lemma OneWindowContains(day: BusinessDay, t: string, name: WindowName)
    requires Ordered(day) && IsTime(t)
    ensures Contains(day, name, Minutes(t)) <==> name == WindowAt(day, t).name
  {
    hide Before, Minutes, IsTime, NextWindowName;
    TheCycle();
    TextOrderIsMinuteOrder(t, day.sodStart);
    TextOrderIsMinuteOrder(t, day.ofaStart);
    TextOrderIsMinuteOrder(t, day.ofaEnd);
    TextOrderIsMinuteOrder(t, day.eodEnd);
  }

  lemma WindowsAgree(day: BusinessDay, t: string)
    ensures var w := WindowAt(day, t);
      && BusinessWindows(day)[PlaceOf(w.name)] == WindowInfo(w.name, w.nextName, w.startTime)
      && BusinessWindows(day)[PlaceOf(w.nextName)].startTime == w.endTime
  {
    hide Before, NextWindowName;
    TheCycle();
  }

  /**
   * At every minute exactly one window of the cycle contains the time, and it is the current one;
   * it starts where its entry in the cycle says and ends where the next window starts.
   */
  lemma CurrentWindowIsTheOne(day: BusinessDay, t: string)
    requires Ordered(day) && IsTime(t)
    ensures var w := WindowAt(day, t);
      && (forall name :: Contains(day, name, Minutes(t)) <==> name == w.name)
      && BusinessWindows(day)[PlaceOf(w.name)] == WindowInfo(w.name, w.nextName, w.startTime)
      && BusinessWindows(day)[PlaceOf(w.nextName)].startTime == w.endTime
  {
    hide WindowAt, Contains, BusinessWindows;
    WindowsAgree(day, t);
    forall name ensures Contains(day, name, Minutes(t)) <==> name == WindowAt(day, t).name {
      OneWindowContains(day, t, name);
    }
  }

  // ----- admin updates -----

  datatype JsonValue = JsonText(text: string) | OtherValue

  datatype Json = Object(fields: OrderedMap<JsonValue>) | NotAnObject

  datatype TimeField = SodStart | OfaStart | OfaEnd | EodEnd {
    function Name(): string {
      match this
      case SodStart => "sodStart"
      case OfaStart => "ofaStart"
      case OfaEnd => "ofaEnd"
      case EodEnd => "eodEnd"
    }
  }

  const TIME_FIELDS: seq<TimeField> := [SodStart, OfaStart, OfaEnd, EodEnd]

  const DATE_FIELD := "businessDate"

  predicate IsDayField(key: string) {
    || key == DATE_FIELD
    || key == SodStart.Name() || key == OfaStart.Name() || key == OfaEnd.Name() || key == EodEnd.Name()
  }

  /** A `Partial<BusinessDay>`. */
  datatype DayUpdate = DayUpdate(times: map<TimeField, string>, businessDate: Option<string>)

  datatype UpdateError =
    | BodyNotAnObject
    | NoFields
    | UnknownFields(names: seq<string>)
    | BadTime(field: TimeField)
    | BadDate
    | OutOfOrder(field: TimeField)

  function Boundary(day: BusinessDay, f: TimeField): string {
    match f
    case SodStart => day.sodStart
    case OfaStart => day.ofaStart
    case OfaEnd => day.ofaEnd
    case EodEnd => day.eodEnd
  }

  function MergedTime(day: BusinessDay, u: DayUpdate, f: TimeField): string {
    if f in u.times then u.times[f] else Boundary(day, f)
  }

  function MergeDay(day: BusinessDay, u: DayUpdate): BusinessDay {
    BusinessDay(
      if u.businessDate.Some? then u.businessDate.value else day.businessDate,
      MergedTime(day, u, SodStart), MergedTime(day, u, OfaStart),
      MergedTime(day, u, OfaEnd), MergedTime(day, u, EodEnd))
  }

  predicate TimeGiven(fields: OrderedMap<JsonValue>, f: TimeField) {
    fields.Has(f.Name())
  }

  predicate TimeFits(fields: OrderedMap<JsonValue>, f: TimeField) {
    TimeGiven(fields, f) ==> fields.Get(f.Name()).JsonText? && IsTime(fields.Get(f.Name()).text)
  }

  /** The text of a field, where it is one. */
  function TextOf(fields: OrderedMap<JsonValue>, key: string): string {
    if fields.Has(key) && fields.Get(key).JsonText? then fields.Get(key).text else ""
  }

  predicate DateFits(fields: OrderedMap<JsonValue>) {
    fields.Has(DATE_FIELD) ==> fields.Get(DATE_FIELD).JsonText? && IsDate(fields.Get(DATE_FIELD).text)
  }

  /** What a well-formed body asks for: exactly the fields it gives. */
  function UpdateOf(fields: OrderedMap<JsonValue>): DayUpdate
  {
    DayUpdate(map f: TimeField | TimeGiven(fields, f) :: TextOf(fields, f.Name()),
              if fields.Has(DATE_FIELD) then Some(TextOf(fields, DATE_FIELD)) else None)
  }

  /** Every field known, of the right shape, and the boundaries in order once merged. */
  ghost predicate Acceptable(body: Json, current: BusinessDay) {
    && body.Object? && body.fields.order != []
    && (forall k :: k in body.fields.order ==> IsDayField(k))
    && (forall f :: TimeFits(body.fields, f)) && DateFits(body.fields)
    && (forall i :: 0 < i < |TIME_FIELDS| ==>
          !Misplaced(current, UpdateOf(body.fields), i))
  }

  function Unknown(keys: seq<string>): (unknown: seq<string>)
    ensures unknown == [] <==> forall k :: k in keys ==> IsDayField(k)
  {
    if keys == [] then []
    else
      assert keys == [keys[0]] + keys[1..];
      (if IsDayField(keys[0]) then [] else [keys[0]]) + Unknown(keys[1..])
  }

  function FieldPlace(f: TimeField): (i: nat)
    ensures i < |TIME_FIELDS| && TIME_FIELDS[i] == f
  {
    match f case SodStart => 0 case OfaStart => 1 case OfaEnd => 2 case EodEnd => 3
  }

  /** The boundary is before the one it should follow. */
  predicate Misplaced(day: BusinessDay, u: DayUpdate, i: nat)
    requires 0 < i < |TIME_FIELDS|
  {
    Before(MergedTime(day, u, TIME_FIELDS[i]), MergedTime(day, u, TIME_FIELDS[i - 1]))
  }

  /** The first check to fail is the one reported. */
  ghost predicate FirstError(body: Json, day: BusinessDay, e: UpdateError) {
    match e
    case BodyNotAnObject => body.NotAnObject?
    case NoFields => body.Object? && body.fields.order == []
    case UnknownFields(names) => body.Object? && names == Unknown(body.fields.order) != []
    case BadTime(field) =>
      && WellNamed(body)
      && !TimeFits(body.fields, field)
      && forall j :: 0 <= j < FieldPlace(field) ==> TimeFits(body.fields, TIME_FIELDS[j])
    case BadDate => WellNamed(body) && (forall f :: TimeFits(body.fields, f)) && !DateFits(body.fields)
    case OutOfOrder(field) =>
      && WellNamed(body) && (forall f :: TimeFits(body.fields, f)) && DateFits(body.fields)
      && 0 < FieldPlace(field) && Misplaced(day, UpdateOf(body.fields), FieldPlace(field))
      && forall j :: 0 < j < FieldPlace(field) ==> !Misplaced(day, UpdateOf(body.fields), j)
  }

  predicate WellNamed(body: Json) {
    body.Object? && body.fields.order != [] && Unknown(body.fields.order) == []
  }

  /** The time fields of the body, one after the other; the first that is no HH:mm is reported. */
  method CollectTimes(fields: OrderedMap<JsonValue>) returns (r: Result<map<TimeField, string>, UpdateError>)
    ensures r.Success? <==> forall f :: TimeFits(fields, f)
    ensures r.Success? ==> r.value == map f: TimeField | TimeGiven(fields, f) :: TextOf(fields, f.Name())
    ensures r.Failure? ==> r.error.BadTime? && !TimeFits(fields, r.error.field)
    ensures r.Failure? ==> forall j :: 0 <= j < FieldPlace(r.error.field) ==> TimeFits(fields, TIME_FIELDS[j])
  {
    var times: map<TimeField, string> := map[];
    for i := 0 to |TIME_FIELDS|
      invariant forall j :: 0 <= j < i ==> TimeFits(fields, TIME_FIELDS[j])
      invariant forall f :: f in times <==> TimeGiven(fields, f) && f in TIME_FIELDS[..i]
      invariant forall f :: f in times ==> times[f] == TextOf(fields, f.Name())
    {
      var field := TIME_FIELDS[i];
      if fields.Has(field.Name()) {
        var v := fields.Get(field.Name());
        if !v.JsonText? || !IsTime(v.text) {
          assert !TimeFits(fields, field) && FieldPlace(field) == i;
          return Failure(BadTime(field));
        }
        times := times[field := v.text];
      }
      assert TIME_FIELDS[..i + 1] == TIME_FIELDS[..i] + [field];
    }
    forall f ensures TimeFits(fields, f) && f in TIME_FIELDS[..|TIME_FIELDS|] {
      assert TIME_FIELDS[FieldPlace(f)] == f;
      assert TIME_FIELDS[..|TIME_FIELDS|] == TIME_FIELDS;
    }
    r := Success(times);
  }

  /** The merged boundaries, each against the one before it. */
  method CheckOrder(current: BusinessDay, update: DayUpdate) returns (wrong: Option<TimeField>)
    ensures wrong.None? ==> forall i :: 0 < i < |TIME_FIELDS| ==> !Misplaced(current, update, i)
    ensures wrong.Some? ==>
      && 0 < FieldPlace(wrong.value) && Misplaced(current, update, FieldPlace(wrong.value))
      && forall j :: 0 < j < FieldPlace(wrong.value) ==> !Misplaced(current, update, j)
  {
    for i := 1 to |TIME_FIELDS|
      invariant forall j :: 0 < j < i ==> !Misplaced(current, update, j)
    {
      if Before(MergedTime(current, update, TIME_FIELDS[i]), MergedTime(current, update, TIME_FIELDS[i - 1])) {
        assert FieldPlace(TIME_FIELDS[i]) == i && Misplaced(current, update, i);
        return Some(TIME_FIELDS[i]);
      }
    }
    wrong := None;
  }

  /** `validateBusinessDayUpdate`: accepts exactly the acceptable bodies, and returns what they give. */
  method ValidateBusinessDayUpdate(body: Json, current: BusinessDay) returns (r: Result<DayUpdate, UpdateError>)
    ensures r.Success? <==> Acceptable(body, current)
    ensures r.Success? ==> r.value == UpdateOf(body.fields)
    ensures r.Failure? ==> FirstError(body, current, r.error)
  {
    if body.NotAnObject? { return Failure(BodyNotAnObject); }
    if body.fields.order == [] { return Failure(NoFields); }
    var unknown := Unknown(body.fields.order);
    if unknown != [] { return Failure(UnknownFields(unknown)); }
    var times := CollectTimes(body.fields);
    if times.Failure? { return Failure(times.error); }
    var date: Option<string> := None;
    if body.fields.Has(DATE_FIELD) {
      var v := body.fields.Get(DATE_FIELD);
      if !v.JsonText? || !IsDate(v.text) { return Failure(BadDate); }
      date := Some(v.text);
    }
    var update := DayUpdate(times.value, date);
    assert update == UpdateOf(body.fields);
    var wrong := CheckOrder(current, update);
    if wrong.Some? { return Failure(OutOfOrder(wrong.value)); }
    r := Success(update);
  }

  /** The day after an admin request: merged if acceptable, unchanged if not. */
  ghost function DayAfter(day: BusinessDay, body: Json): BusinessDay {
    if Acceptable(body, day) then MergeDay(day, UpdateOf(body.fields)) else day
  }

  /** The admin endpoint on the store. */
  method UpdateBusinessDay(store: MemoryStore, body: Json) returns (r: Result<DayUpdate, UpdateError>)
    requires store.Valid()
    modifies store`businessWindow
    ensures store.Valid() && r.Success? == Acceptable(body, old(store.businessWindow))
    ensures store.State() == old(store.State()).(day := DayAfter(old(store.businessWindow), body))
  {
    r := ValidateBusinessDayUpdate(body, store.businessWindow);
    if r.Success? { store.SetBusinessDay(MergeDay(store.businessWindow, r.value)); }
  }

  lemma MergedTimesFit(day: BusinessDay, body: Json, f: TimeField)
    requires Ordered(day) && Acceptable(body, day)
    ensures IsTime(MergedTime(day, UpdateOf(body.fields), f))
  {
    assert TimeFits(body.fields, f);
  }

  /** An admin request, accepted or not, keeps four HH:mm boundaries in order. */
  lemma UpdateKeepsOrder(day: BusinessDay, body: Json)
    requires Ordered(day)
    ensures Ordered(DayAfter(day, body))
  {
    if Acceptable(body, day) {
      var u := UpdateOf(body.fields);
      forall f ensures IsTime(MergedTime(day, u, f)) { MergedTimesFit(day, body, f); }
      forall i | 0 < i < |TIME_FIELDS|
        ensures Minutes(MergedTime(day, u, TIME_FIELDS[i - 1])) <= Minutes(MergedTime(day, u, TIME_FIELDS[i]))
      {
        assert !Misplaced(day, u, i);
        TextOrderIsMinuteOrder(MergedTime(day, u, TIME_FIELDS[i]), MergedTime(day, u, TIME_FIELDS[i - 1]));
      }
      assert TIME_FIELDS[0] == SodStart && TIME_FIELDS[1] == OfaStart;
      assert TIME_FIELDS[2] == OfaEnd && TIME_FIELDS[3] == EodEnd;
    }
  }

  /** The text under `key`, or the boundary as it is. */
  function Given(fields: OrderedMap<JsonValue>, key: string, current: string): string {
    if fields.Has(key) && fields.Get(key).JsonText? then fields.Get(key).text else current
  }

  /** The day with each field of the body in the place of its namesake. */
  function WithFields(day: BusinessDay, fields: OrderedMap<JsonValue>): BusinessDay {
    BusinessDay(
      Given(fields, "businessDate", day.businessDate), Given(fields, "sodStart", day.sodStart),
      Given(fields, "ofaStart", day.ofaStart), Given(fields, "ofaEnd", day.ofaEnd), Given(fields, "eodEnd", day.eodEnd))
  }

  /** At least one field, none but the five of a day, and each a text of its shape. */
  predicate WellFormed(body: Json) {
    && body.Object? && body.fields.order != []
    && (forall k :: k in body.fields.order ==> k in {"businessDate", "sodStart", "ofaStart", "ofaEnd", "eodEnd"})
    && (forall k :: k in {"sodStart", "ofaStart", "ofaEnd", "eodEnd"} && body.fields.Has(k) ==>
          body.fields.Get(k).JsonText? && IsTime(body.fields.Get(k).text))
    && (body.fields.Has("businessDate") ==>
          body.fields.Get("businessDate").JsonText? && IsDate(body.fields.Get("businessDate").text))
  }

  lemma ShapesFit(body: Json)
    requires body.Object?
    ensures WellFormed(body) <==>
      && body.fields.order != [] && (forall k :: k in body.fields.order ==> IsDayField(k))
      && (forall f :: TimeFits(body.fields, f)) && DateFits(body.fields)
  {
    var fields := body.fields;
    var four := TimeFits(fields, SodStart) && TimeFits(fields, OfaStart) && TimeFits(fields, OfaEnd)
                && TimeFits(fields, EodEnd);
    assert four <==> forall f :: TimeFits(fields, f);
  }

  lemma MergesByName(day: BusinessDay, body: Json)
    requires WellFormed(body)
    ensures MergeDay(day, UpdateOf(body.fields)) == WithFields(day, body.fields)
  {
  }

  lemma InPlaceExactly(day: BusinessDay, u: DayUpdate)
    requires forall f :: IsTime(MergedTime(day, u, f))
    ensures (forall i :: 0 < i < |TIME_FIELDS| ==> !Misplaced(day, u, i)) <==> Ordered(MergeDay(day, u))
  {
    hide Before, Minutes, IsTime;
    TextOrderIsMinuteOrder(MergedTime(day, u, OfaStart), MergedTime(day, u, SodStart));
    TextOrderIsMinuteOrder(MergedTime(day, u, OfaEnd), MergedTime(day, u, OfaStart));
    TextOrderIsMinuteOrder(MergedTime(day, u, EodEnd), MergedTime(day, u, OfaEnd));
    assert Misplaced(day, u, 1) <==> Minutes(MergedTime(day, u, OfaStart)) < Minutes(MergedTime(day, u, SodStart));
    assert Misplaced(day, u, 2) <==> Minutes(MergedTime(day, u, OfaEnd)) < Minutes(MergedTime(day, u, OfaStart));
    assert Misplaced(day, u, 3) <==> Minutes(MergedTime(day, u, EodEnd)) < Minutes(MergedTime(day, u, OfaEnd));
  }

  /**
   * A request is accepted if and only if it is well formed and leaves the boundaries in order, and then each
   * field it gives, and no other, has taken the place of its namesake.
   */
  lemma AcceptsExactly(day: BusinessDay, body: Json)
    requires Ordered(day)
    ensures Acceptable(body, day) <==> WellFormed(body) && Ordered(WithFields(day, body.fields))
    ensures DayAfter(day, body) == if Acceptable(body, day) then WithFields(day, body.fields) else day
  {
    hide Ordered, Misplaced, MergeDay, WithFields, UpdateOf, IsDate, IsTime;
    if body.Object? {
      ShapesFit(body);
      if WellFormed(body) {
        MergesByName(day, body);
        var u := UpdateOf(body.fields);
        forall f ensures IsTime(MergedTime(day, u, f)) { GivenOrTime(day, body, f); }
        InPlaceExactly(day, u);
      }
    }
  }

  lemma GivenOrTime(day: BusinessDay, body: Json, f: TimeField)
    requires Ordered(day) && WellFormed(body)
    ensures IsTime(MergedTime(day, UpdateOf(body.fields), f))
  {
    hide Minutes;
    ShapesFit(body);
    assert TimeFits(body.fields, f);
  }

  /** The day a fresh store starts with. */
  function DefaultDay(date: string): BusinessDay {
    BusinessDay(date, "00:00", "00:01", "23:58", "23:59")
  }

  ghost function DayAfterAll(date: string, bodies: seq<Json>): BusinessDay {
    if bodies == [] then DefaultDay(date) else DayAfter(DayAfterAll(date, bodies[..|bodies| - 1]), bodies[|bodies| - 1])
  }

  /** After any sequence of admin requests the day is in order, so at every minute one window is current. */
  lemma {:induction false} DaysStayInOrder(date: string, bodies: seq<Json>)
    ensures Ordered(DayAfterAll(date, bodies))
  {
    if bodies == [] {
    } else {
      DaysStayInOrder(date, bodies[..|bodies| - 1]);
      UpdateKeepsOrder(DayAfterAll(date, bodies[..|bodies| - 1]), bodies[|bodies| - 1]);
    }
  }
}
