/** The line ledger of a timecard: time-entry lines in insertion order, the
    lookup by unique identifier, the closed set of patchable fields, and the
    presentation order used when the lines are listed. */
module LineLedger {
  import opened Common

  /** The days of the week. DayOfWeek is an int-backed enumeration, and
      Enum.Parse also accepts numeric text outside 0..6, giving an unnamed
      value; Unnamed(code) stands for such a value, and only for codes
      outside 0..6: a parse that yields code 0..6 yields the named day
      (code 1 is Monday), never Unnamed. */
  datatype DayOfWeek = Sunday | Monday | Tuesday | Wednesday | Thursday | Friday | Saturday | Unnamed(code: int)

  /** A single-precision float: a finite value (taken as an exact real, with
      no rounding) or one of the special values float.Parse accepts. */
  datatype Float = Finite(value: real) | NaN | PositiveInfinity | NegativeInfinity

  /** One time entry. Dates and timestamps are ticks (integers); Hours and
      LineNumber are the service's single-precision floats. */
  datatype Line = Line(
    uniqueIdentifier: LineId,
    resource: PersonId,
    workDate: int,
    recorded: int,
    project: string,
    hours: Float,
    lineNumber: Float,
    recordIdentity: int,
    recordVersion: int,
    version: string,
    week: int,
    year: int,
    day: DayOfWeek)

  /** Index i holds the first line carrying identifier id. */
  predicate FirstMatch(lines: seq<Line>, id: LineId, i: int)
  {
    && 0 <= i < |lines|
    && lines[i].uniqueIdentifier == id
    && forall j :: 0 <= j < i ==> lines[j].uniqueIdentifier != id
  }

  /** The linear scan by identifier: the first index whose line carries id. */
  function IndexOf(lines: seq<Line>, id: LineId): (r: Option<nat>)
    ensures r.Some? ==> FirstMatch(lines, id, r.value)
    ensures r.None? <==> forall j :: 0 <= j < |lines| ==> lines[j].uniqueIdentifier != id
  {
    if |lines| == 0 then None
    else if lines[0].uniqueIdentifier == id then Some(0)
    else match IndexOf(lines[1..], id)
      case None => None
      case Some(i) => Some(i + 1)
  }

  /** after is before with exactly the entry at i replaced by line. */
  predicate ReplacedAt(before: seq<Line>, after: seq<Line>, i: int, line: Line)
  {
    && 0 <= i < |before|
    && |after| == |before|
    && after[i] == line
    && forall j :: 0 <= j < |before| && j != i ==> after[j] == before[j]
  }

  // ----- Fields that can be patched one at a time -----

  /** The recognised field names of a single-field patch. WorkDate is
      deliberately absent: a patch naming it is answered with NotFound. */
  datatype Field =
    | Recorded | LineNumber | RecordIdentity | RecordVersion | UniqueIdentifier
    | Version | Week | Year | Day | Hours | Project

  /** A typed field value. */
  datatype FieldValue =
    | DateValue(date: int)
    | NumberValue(number: Float)
    | IntValue(integer: int)
    | GuidValue(guid: LineId)
    | TextValue(text: string)
    | DayValue(weekday: DayOfWeek)

  /** The patch body as the library parsers see it: the raw text together with
      what DateTime.Parse, float.Parse, Int32.Parse, Guid.Parse and
      Enum.Parse<DayOfWeek> make of it (None where the parser throws). */
  datatype RawUpdate = RawUpdate(
    text: string,
    asDateTime: Option<int>,
    asFloat: Option<Float>,
    asInt32: Option<int>,
    asGuid: Option<LineId>,
    asDayOfWeek: Option<DayOfWeek>)

  /** The name a patch request uses for each field. */
  function Name(f: Field): string
  {
    match f
    case Recorded => "recorded"
    case LineNumber => "lineNumber"
    case RecordIdentity => "recId"
    case RecordVersion => "recVersion"
    case UniqueIdentifier => "uniqueIdentifier"
    case Version => "version"
    case Week => "week"
    case Year => "year"
    case Day => "day"
    case Hours => "hours"
    case Project => "project"
  }

  /** The closed dispatch over field names, in the order the controller tests
      them. It recognises a name exactly when some field is called by it;
      "workDate" and every other name are unrecognised. */
  function FieldNamed(name: string): (r: Option<Field>)
    ensures r.Some? ==> Name(r.value) == name
    ensures r.None? <==> forall f: Field :: Name(f) != name
  {
    if name == "recorded" then Some(Recorded)
    else if name == "workDate" then None
    else if name == "lineNumber" then Some(LineNumber)
    else if name == "recId" then Some(RecordIdentity)
    else if name == "recVersion" then Some(RecordVersion)
    else if name == "uniqueIdentifier" then Some(UniqueIdentifier)
    else if name == "version" then Some(Version)
    else if name == "week" then Some(Week)
    else if name == "year" then Some(Year)
    else if name == "day" then Some(Day)
    else if name == "hours" then Some(Hours)
    else if name == "project" then Some(Project)
    else None
  }

  /** Names and fields correspond one to one. */
  lemma NamesRoundTrip(f: Field)
    ensures FieldNamed(Name(f)) == Some(f)
  {
  }

  /** Whether v has the type field f stores. */
  predicate Fits(f: Field, v: FieldValue)
  {
    match f
    case Recorded => v.DateValue?
    case LineNumber => v.NumberValue?
    case Hours => v.NumberValue?
    case RecordIdentity => v.IntValue?
    case RecordVersion => v.IntValue?
    case Week => v.IntValue?
    case Year => v.IntValue?
    case UniqueIdentifier => v.GuidValue?
    case Version => v.TextValue?
    case Project => v.TextValue?
    case Day => v.DayValue?
  }

  /** Parses the patch body with the parser of field f. The text fields
      (version, project) take the text as it is and never fail; the others
      fail exactly when their library parser would throw. */
  function Parse(f: Field, raw: RawUpdate): (r: Option<FieldValue>)
    ensures r.Some? ==> Fits(f, r.value)
    ensures (f == Version || f == Project) ==> r == Some(TextValue(raw.text))
    ensures f == Recorded ==> (r.None? <==> raw.asDateTime.None?)
    ensures (f == LineNumber || f == Hours) ==> (r.None? <==> raw.asFloat.None?)
    ensures (f == RecordIdentity || f == RecordVersion || f == Week || f == Year) ==> (r.None? <==> raw.asInt32.None?)
    ensures f == UniqueIdentifier ==> (r.None? <==> raw.asGuid.None?)
    ensures f == Day ==> (r.None? <==> raw.asDayOfWeek.None?)
    ensures f == Recorded && raw.asDateTime.Some? ==> r == Some(DateValue(raw.asDateTime.value))
    ensures (f == LineNumber || f == Hours) && raw.asFloat.Some? ==> r == Some(NumberValue(raw.asFloat.value))
    ensures (f == RecordIdentity || f == RecordVersion || f == Week || f == Year) && raw.asInt32.Some? ==>
              r == Some(IntValue(raw.asInt32.value))
    ensures f == UniqueIdentifier && raw.asGuid.Some? ==> r == Some(GuidValue(raw.asGuid.value))
    ensures f == Day && raw.asDayOfWeek.Some? ==> r == Some(DayValue(raw.asDayOfWeek.value))
  {
    match f
    case Recorded =>
      (match raw.asDateTime case Some(d) => Some(DateValue(d)) case None => None)
    case LineNumber | Hours =>
      (match raw.asFloat case Some(x) => Some(NumberValue(x)) case None => None)
    case RecordIdentity | RecordVersion | Week | Year =>
      (match raw.asInt32 case Some(n) => Some(IntValue(n)) case None => None)
    case UniqueIdentifier =>
      (match raw.asGuid case Some(g) => Some(GuidValue(g)) case None => None)
    case Day =>
      (match raw.asDayOfWeek case Some(d) => Some(DayValue(d)) case None => None)
    case Version | Project => Some(TextValue(raw.text))
  }

  /** Reads field f of a line. */
  function Get(l: Line, f: Field): (v: FieldValue)
    ensures Fits(f, v)
  {
    match f
    case Recorded => DateValue(l.recorded)
    case LineNumber => NumberValue(l.lineNumber)
    case RecordIdentity => IntValue(l.recordIdentity)
    case RecordVersion => IntValue(l.recordVersion)
    case UniqueIdentifier => GuidValue(l.uniqueIdentifier)
    case Version => TextValue(l.version)
    case Week => IntValue(l.week)
    case Year => IntValue(l.year)
    case Day => DayValue(l.day)
    case Hours => NumberValue(l.hours)
    case Project => TextValue(l.project)
  }

  /** m is l with exactly field f changed to v: every other patchable field,
      the work date and the resource are as they were. */
  predicate OnlyFieldChanged(l: Line, m: Line, f: Field, v: FieldValue)
  {
    && Get(m, f) == v
    && (forall g: Field :: g != f ==> Get(m, g) == Get(l, g))
    && m.workDate == l.workDate
    && m.resource == l.resource
  }

  /** Writes field f of a line. */
  function Set(l: Line, f: Field, v: FieldValue): (m: Line)
    requires Fits(f, v)
    ensures OnlyFieldChanged(l, m, f, v)
  {
    match f
    case Recorded => l.(recorded := v.date)
    case LineNumber => l.(lineNumber := v.number)
    case RecordIdentity => l.(recordIdentity := v.integer)
    case RecordVersion => l.(recordVersion := v.integer)
    case UniqueIdentifier => l.(uniqueIdentifier := v.guid)
    case Version => l.(version := v.text)
    case Week => l.(week := v.integer)
    case Year => l.(year := v.integer)
    case Day => l.(day := v.weekday)
    case Hours => l.(hours := v.number)
    case Project => l.(project := v.text)
  }

  /** OnlyFieldChanged pins the whole line down: Set is its only solution. */
  lemma OnlyFieldChangedDetermines(l: Line, m: Line, f: Field, v: FieldValue)
    requires Fits(f, v)
    requires OnlyFieldChanged(l, m, f, v)
    ensures m == Set(l, f, v)
  {
    var s := Set(l, f, v);
    assert Get(m, Recorded) == Get(s, Recorded);
    assert Get(m, LineNumber) == Get(s, LineNumber);
    assert Get(m, RecordIdentity) == Get(s, RecordIdentity);
    assert Get(m, RecordVersion) == Get(s, RecordVersion);
    assert Get(m, UniqueIdentifier) == Get(s, UniqueIdentifier);
    assert Get(m, Version) == Get(s, Version);
    assert Get(m, Week) == Get(s, Week);
    assert Get(m, Year) == Get(s, Year);
    assert Get(m, Day) == Get(s, Day);
    assert Get(m, Hours) == Get(s, Hours);
    assert Get(m, Project) == Get(s, Project);
  }

  // ----- Presentation order -----

  /** Line a is listed no later than line b: by work date, then by the
      timestamp it was recorded. */
  predicate ListedBefore(a: Line, b: Line)
  {
    a.workDate < b.workDate || (a.workDate == b.workDate && a.recorded <= b.recorded)
  }

  predicate InPresentationOrder(s: seq<Line>)
  {
    forall i, j :: 0 <= i < j < |s| ==> ListedBefore(s[i], s[j])
  }

  /** Inserts x in front of the first line it is listed before. */
  function Insert(x: Line, s: seq<Line>): (r: seq<Line>)
    ensures multiset(r) == multiset(s) + multiset{x}
    ensures forall k :: 0 <= k < |r| ==> r[k] == x || r[k] in s
  {
    if |s| == 0 then [x]
    else if ListedBefore(x, s[0]) then [x] + s
    else
      assert s == [s[0]] + s[1..];
      [s[0]] + Insert(x, s[1..])
  }

  /** Inserting into an ordered listing keeps it ordered. */
  lemma {:induction false} InsertOrdered(x: Line, s: seq<Line>)
    requires InPresentationOrder(s)
    ensures InPresentationOrder(Insert(x, s))
  {
    if |s| > 0 && !ListedBefore(x, s[0]) {
      var rest := Insert(x, s[1..]);
      InsertOrdered(x, s[1..]);
      var r := [s[0]] + rest;
      assert r == Insert(x, s);
      forall i, j | 0 <= i < j < |r|
        ensures ListedBefore(r[i], r[j])
      {
        if i == 0 {
          assert r[j] == rest[j - 1];
          if rest[j - 1] != x {
            var k :| 1 <= k < |s| && s[k] == rest[j - 1];
          }
        }
      }
    }
  }

  /** [x] when x carries the sort key (workDate, recorded), else []. */
  function Keyed(x: Line, workDate: int, recorded: int): seq<Line>
  {
    if x.workDate == workDate && x.recorded == recorded then [x] else []
  }

  /** The lines of s that carry the sort key (workDate, recorded), in the
      order s holds them. */
  function WithKey(s: seq<Line>, workDate: int, recorded: int): seq<Line>
  {
    if |s| == 0 then [] else Keyed(s[0], workDate, recorded) + WithKey(s[1..], workDate, recorded)
  }

  /** Insert passes only over lines with a strictly smaller key, so x lands
      in front of every line that shares its key, and the lines of every
      other key keep their order. */
  lemma {:induction false} InsertStable(x: Line, s: seq<Line>)
    ensures forall wd, rec :: WithKey(Insert(x, s), wd, rec) == Keyed(x, wd, rec) + WithKey(s, wd, rec)
  {
    if |s| > 0 && !ListedBefore(x, s[0]) {
      var rest := Insert(x, s[1..]);
      InsertStable(x, s[1..]);
      assert ([s[0]] + rest)[1..] == rest;
    } else if |s| > 0 {
      assert ([x] + s)[1..] == s;
    }
  }

  /** The lines as a listing presents them: the same lines, ordered by work
      date and then by recorded timestamp, and, as OrderBy/ThenBy are stable
      sorts, lines sharing both keys in the order they are stored. Stored
      order is left alone. */
  function PresentationOrder(s: seq<Line>): (r: seq<Line>)
    ensures InPresentationOrder(r)
    ensures multiset(r) == multiset(s)
    ensures forall wd, rec :: WithKey(r, wd, rec) == WithKey(s, wd, rec)
  {
    if |s| == 0 then []
    else
      var rest := PresentationOrder(s[1..]);
      InsertOrdered(s[0], rest);
      InsertStable(s[0], rest);
      assert s == [s[0]] + s[1..];
      Insert(s[0], rest)
  }
}
