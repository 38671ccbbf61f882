/** The timecard aggregate: the lifecycle state machine over one timecard,
    with every guard the controller applies, taken as pure operations that
    return either the new timecard or an error kind. */
module Timecards {
  import opened Common
  import opened TransitionLedger
  import opened LineLedger

  /** A timecard: its identity, the resource it belongs to, its lines in
      insertion order and its transition history. */
  datatype Timecard = Timecard(
    id: TimecardId,
    owner: PersonId,
    lines: seq<Line>,
    transitions: seq<Transition>)

  /** A stored timecard has been created, so its history is not empty. */
  predicate HasHistory(tc: Timecard)
  {
    |tc.transitions| > 0
  }

  /** The status is not stored: it is the target of the last transition. */
  function StatusOf(tc: Timecard): Status
    requires HasHistory(tc)
  {
    Current(tc.transitions)
  }

  /** The segregation-of-duties record of entry i: the owner entered the card
      and submitted it, someone else approved or rejected it, and a
      cancellation straight from Draft was the owner's. */
  predicate DutyRespected(owner: PersonId, ts: seq<Transition>, i: int)
    requires 0 <= i < |ts|
  {
    match ts[i].kind
    case Entered => ts[i].actor == owner
    case Submittal => ts[i].actor == owner
    case Rejection => ts[i].actor != owner
    case Approval => ts[i].actor != owner
    case Cancellation => (i > 0 && ts[i - 1].to == Draft) ==> ts[i].actor == owner
  }

  /** The invariant of every timecard the operations can produce: a
      well-formed ledger, duties segregated at every step, and lines present
      whenever the card has been submitted and not cancelled. */
  predicate WellFormed(tc: Timecard)
  {
    && WellFormedLedger(tc.transitions)
    && (forall i :: 0 <= i < |tc.transitions| ==> DutyRespected(tc.owner, tc.transitions, i))
    && (StatusOf(tc) == Submitted || StatusOf(tc) == Approved || StatusOf(tc) == Rejected ==> |tc.lines| > 0)
  }

  /** tc' differs from tc only by one transition of kind k by actor, stamped
      now, appended to its history. */
  predicate AppendsOne(tc: Timecard, tc': Timecard, k: Kind, actor: PersonId, now: int)
  {
    && tc'.id == tc.id
    && tc'.owner == tc.owner
    && tc'.lines == tc.lines
    && |tc'.transitions| == |tc.transitions| + 1
    && tc'.transitions[..|tc.transitions|] == tc.transitions
    && tc'.transitions[|tc.transitions|] == Record(k, actor, now)
  }

  /** tc' differs from tc only in its lines. */
  predicate SameExceptLines(tc: Timecard, tc': Timecard)
  {
    tc'.id == tc.id && tc'.owner == tc.owner && tc'.transitions == tc.transitions
  }

  /** A new timecard for person: owned by the creator, no lines, and a history
      of exactly the creator's Entered record, so its status is Draft. */
  function Create(id: TimecardId, person: PersonId, now: int): (tc: Timecard)
    ensures tc.id == id && tc.owner == person && tc.lines == []
    ensures tc.transitions == [Record(Entered, person, now)]
    ensures HasHistory(tc) && StatusOf(tc) == Draft
    ensures WellFormed(tc)
  {
    Timecard(id, person, [], [Record(Entered, person, now)])
  }

  /** Deletion is allowed from Draft and Cancelled only. */
  function CheckDelete(tc: Timecard): (r: Option<Error>)
    requires HasHistory(tc)
    ensures r.None? <==> StatusOf(tc) == Draft || StatusOf(tc) == Cancelled
    ensures r.Some? ==> r.value == InvalidState
  {
    if StatusOf(tc) != Cancelled && StatusOf(tc) != Draft then Some(InvalidState) else None
  }

  /** Appends one line while the card is a draft. */
  function AddLine(tc: Timecard, line: Line): (r: Result<Timecard>)
    requires HasHistory(tc)
    ensures r.Ok? <==> StatusOf(tc) == Draft
    ensures r.Err? ==> r.error == InvalidState
    ensures r.Ok? ==> SameExceptLines(tc, r.value) && HasHistory(r.value) && StatusOf(r.value) == Draft
    ensures r.Ok? ==> |r.value.lines| == |tc.lines| + 1 && r.value.lines[..|tc.lines|] == tc.lines
                      && r.value.lines[|tc.lines|] == line
  {
    if StatusOf(tc) != Draft then Err(InvalidState)
    else Ok(tc.(lines := tc.lines + [line]))
  }

  /** Replaces the first line carrying identifier unique by line, in place.
      The ownership check comes first and answers NotFound; then the Draft
      check answers InvalidState; a missing line answers NotFound. */
  function ReplaceLine(tc: Timecard, unique: LineId, line: Line): (r: Result<Timecard>)
    requires HasHistory(tc)
    ensures line.resource != tc.owner ==> r == Err(NotFound)
    ensures r == Err(InvalidState) <==> line.resource == tc.owner && StatusOf(tc) != Draft
    ensures r.Ok? <==> line.resource == tc.owner && StatusOf(tc) == Draft
                       && exists j :: 0 <= j < |tc.lines| && tc.lines[j].uniqueIdentifier == unique
    ensures r.Err? ==> r.error == NotFound || r.error == InvalidState
    ensures r.Ok? ==> SameExceptLines(tc, r.value)
    ensures r.Ok? ==> exists i :: FirstMatch(tc.lines, unique, i) && ReplacedAt(tc.lines, r.value.lines, i, line)
  {
    if line.resource != tc.owner then Err(NotFound)
    else if StatusOf(tc) != Draft then Err(InvalidState)
    else match IndexOf(tc.lines, unique)
      case None => Err(NotFound)
      case Some(i) => Ok(tc.(lines := tc.lines[i := line]))
  }

  /** after is before with only field f of the line at i set to v. */
  predicate PatchedAt(before: seq<Line>, after: seq<Line>, i: int, f: Field, v: FieldValue)
  {
    && 0 <= i < |before|
    && |after| == |before|
    && OnlyFieldChanged(before[i], after[i], f, v)
    && forall j :: 0 <= j < |before| && j != i ==> after[j] == before[j]
  }

  /** Sets one named field of the first line carrying identifier unique. Not
      a draft: InvalidState. No such line, or a name outside the closed set
      (including "workDate"): NotFound. Text the field's parser rejects:
      ValidationError. */
  function UpdateLineItem(tc: Timecard, unique: LineId, name: string, raw: RawUpdate): (r: Result<Timecard>)
    requires HasHistory(tc)
    ensures StatusOf(tc) != Draft ==> r == Err(InvalidState)
    ensures StatusOf(tc) == Draft && FieldNamed(name).None? ==> r == Err(NotFound)
    ensures (StatusOf(tc) == Draft && forall j :: 0 <= j < |tc.lines| ==> tc.lines[j].uniqueIdentifier != unique) ==>
              r == Err(NotFound)
    ensures r == Err(ValidationError) <==>
              StatusOf(tc) == Draft && IndexOf(tc.lines, unique).Some?
              && FieldNamed(name).Some? && Parse(FieldNamed(name).value, raw).None?
    ensures r.Ok? <==>
              StatusOf(tc) == Draft && IndexOf(tc.lines, unique).Some?
              && FieldNamed(name).Some? && Parse(FieldNamed(name).value, raw).Some?
    ensures r.Ok? ==> SameExceptLines(tc, r.value)
    ensures r.Ok? ==>
              exists i :: FirstMatch(tc.lines, unique, i)
                && PatchedAt(tc.lines, r.value.lines, i, FieldNamed(name).value, Parse(FieldNamed(name).value, raw).value)
  {
    if StatusOf(tc) != Draft then Err(InvalidState)
    else match IndexOf(tc.lines, unique)
      case None => Err(NotFound)
      case Some(i) =>
        match FieldNamed(name)
        case None => Err(NotFound)
        case Some(f) =>
          match Parse(f, raw)
          case None => Err(ValidationError)
          case Some(v) => Ok(tc.(lines := tc.lines[i := Set(tc.lines[i], f, v)]))
  }

  /** Submission, guarded in this order: not a draft -> InvalidState; no
      lines -> EmptyTimecard; submitted by anyone but the owner ->
      InvalidState. */
  function Submit(tc: Timecard, actor: PersonId, now: int): (r: Result<Timecard>)
    requires HasHistory(tc)
    ensures StatusOf(tc) != Draft ==> r == Err(InvalidState)
    ensures r == Err(EmptyTimecard) <==> StatusOf(tc) == Draft && |tc.lines| == 0
    ensures StatusOf(tc) == Draft && |tc.lines| > 0 && actor != tc.owner ==> r == Err(InvalidState)
    ensures r.Ok? <==> StatusOf(tc) == Draft && |tc.lines| > 0 && actor == tc.owner
    ensures r.Ok? ==> AppendsOne(tc, r.value, Submittal, actor, now) && HasHistory(r.value) && StatusOf(r.value) == Submitted
  {
    if StatusOf(tc) != Draft then Err(InvalidState)
    else if |tc.lines| < 1 then Err(EmptyTimecard)
    else if tc.owner != actor then Err(InvalidState)
    else Ok(tc.(transitions := Append(tc.transitions, Record(Submittal, actor, now))))
  }

  /** Cancellation: only from Draft or Submitted; from Draft only by the
      owner, from Submitted by anyone. Every failure is InvalidState. */
  function Cancel(tc: Timecard, actor: PersonId, now: int): (r: Result<Timecard>)
    requires HasHistory(tc)
    ensures r.Ok? <==> StatusOf(tc) == Submitted || (StatusOf(tc) == Draft && actor == tc.owner)
    ensures r.Err? ==> r.error == InvalidState
    ensures r.Ok? ==> AppendsOne(tc, r.value, Cancellation, actor, now) && HasHistory(r.value) && StatusOf(r.value) == Cancelled
  {
    if StatusOf(tc) != Draft && StatusOf(tc) != Submitted then Err(InvalidState)
    else if StatusOf(tc) == Draft && tc.owner != actor then Err(InvalidState)
    else Ok(tc.(transitions := Append(tc.transitions, Record(Cancellation, actor, now))))
  }

  /** Rejection: only of a submitted card and never by its owner. */
  function Reject(tc: Timecard, actor: PersonId, now: int): (r: Result<Timecard>)
    requires HasHistory(tc)
    ensures r.Ok? <==> StatusOf(tc) == Submitted && actor != tc.owner
    ensures r.Err? ==> r.error == InvalidState
    ensures r.Ok? ==> AppendsOne(tc, r.value, Rejection, actor, now) && HasHistory(r.value) && StatusOf(r.value) == Rejected
  {
    if StatusOf(tc) != Submitted then Err(InvalidState)
    else if tc.owner == actor then Err(InvalidState)
    else Ok(tc.(transitions := Append(tc.transitions, Record(Rejection, actor, now))))
  }

  /** Approval: only of a submitted card and never by its owner. */
  function Approve(tc: Timecard, actor: PersonId, now: int): (r: Result<Timecard>)
    requires HasHistory(tc)
    ensures r.Ok? <==> StatusOf(tc) == Submitted && actor != tc.owner
    ensures r.Err? ==> r.error == InvalidState
    ensures r.Ok? ==> AppendsOne(tc, r.value, Approval, actor, now) && HasHistory(r.value) && StatusOf(r.value) == Approved
  {
    if StatusOf(tc) != Submitted then Err(InvalidState)
    else if tc.owner == actor then Err(InvalidState)
    else Ok(tc.(transitions := Append(tc.transitions, Record(Approval, actor, now))))
  }

  /** The query for the transition into status s: it answers only while s is
      the current status (MissingTransition otherwise), with the entry of
      target s that has the latest timestamp. The controller offers it for
      Submitted, Cancelled, Rejected and Approved; s == Draft is a
      generalisation. */
  function TransitionInto(tc: Timecard, s: Status): (r: Result<Transition>)
    requires HasHistory(tc)
    ensures r.Ok? <==> StatusOf(tc) == s
    ensures r.Err? ==> r.error == MissingTransition
    ensures r.Ok? ==> r.value in tc.transitions && r.value.to == s
    ensures r.Ok? ==> forall t :: t in tc.transitions && t.to == s ==> t.occurredAt <= r.value.occurredAt
  {
    if StatusOf(tc) != s then Err(MissingTransition)
    else match LatestWithTarget(tc.transitions, s)
      case Some(i) => Ok(tc.transitions[i])
      case None => Err(MissingTransition)
  }

  function GetSubmittal(tc: Timecard): (r: Result<Transition>)
    requires HasHistory(tc)
    ensures r.Ok? <==> StatusOf(tc) == Submitted
    ensures r.Ok? ==> r.value in tc.transitions && r.value.to == Submitted
    ensures r.Ok? ==> forall t :: t in tc.transitions && t.to == Submitted ==> t.occurredAt <= r.value.occurredAt
    ensures r.Err? ==> r.error == MissingTransition
  {
    TransitionInto(tc, Submitted)
  }

  function GetCancellation(tc: Timecard): (r: Result<Transition>)
    requires HasHistory(tc)
    ensures r.Ok? <==> StatusOf(tc) == Cancelled
    ensures r.Ok? ==> r.value in tc.transitions && r.value.to == Cancelled
    ensures r.Ok? ==> forall t :: t in tc.transitions && t.to == Cancelled ==> t.occurredAt <= r.value.occurredAt
    ensures r.Err? ==> r.error == MissingTransition
  {
    TransitionInto(tc, Cancelled)
  }

  function GetRejection(tc: Timecard): (r: Result<Transition>)
    requires HasHistory(tc)
    ensures r.Ok? <==> StatusOf(tc) == Rejected
    ensures r.Ok? ==> r.value in tc.transitions && r.value.to == Rejected
    ensures r.Ok? ==> forall t :: t in tc.transitions && t.to == Rejected ==> t.occurredAt <= r.value.occurredAt
    ensures r.Err? ==> r.error == MissingTransition
  {
    TransitionInto(tc, Rejected)
  }

  function GetApproval(tc: Timecard): (r: Result<Transition>)
    requires HasHistory(tc)
    ensures r.Ok? <==> StatusOf(tc) == Approved
    ensures r.Ok? ==> r.value in tc.transitions && r.value.to == Approved
    ensures r.Ok? ==> forall t :: t in tc.transitions && t.to == Approved ==> t.occurredAt <= r.value.occurredAt
    ensures r.Err? ==> r.error == MissingTransition
  {
    TransitionInto(tc, Approved)
  }

  /** On a timecard the operations produced, a successful query answers with
      the transition appended last. */
  lemma QueryAnswersLast(tc: Timecard, s: Status)
    requires WellFormed(tc)
    requires StatusOf(tc) == s
    ensures TransitionInto(tc, s) == Ok(tc.transitions[|tc.transitions| - 1])
  {
    LatestIsLast(tc.transitions, s);
  }

  // ----- The controller's scans over the lines, with their exits -----

  /** The scan of ReplaceLine and its exits: scan from the front and, at the
      first hit, put the new line at that index (the controller removes the
      old line and inserts the new one there). It computes what ReplaceLine
      states. */
  method ReplaceLineScan(tc: Timecard, unique: LineId, line: Line) returns (r: Result<Timecard>)
    requires HasHistory(tc)
    ensures r == ReplaceLine(tc, unique, line)
  {
    if line.resource != tc.owner {
      return Err(NotFound);
    }
    if StatusOf(tc) != Draft {
      return Err(InvalidState);
    }
    var i := 0;
    while i < |tc.lines|
      invariant 0 <= i <= |tc.lines|
      invariant forall j :: 0 <= j < i ==> tc.lines[j].uniqueIdentifier != unique
    {
      if tc.lines[i].uniqueIdentifier == unique {
        return Ok(tc.(lines := tc.lines[i := line]));
      }
      i := i + 1;
    }
    return Err(NotFound);
  }

  /** The scan of UpdateLineItem and its exits: at a line with the
      identifier, "workDate" answers NotFound, a recognised name is parsed and
      set, and any other name falls through the controller's chain of tests,
      so that the scan goes on to the next line. The chain of eleven tests is
      folded into FieldNamed, Parse and Set. It computes what UpdateLineItem
      states. */
  method UpdateLineItemScan(tc: Timecard, unique: LineId, name: string, raw: RawUpdate) returns (r: Result<Timecard>)
    requires HasHistory(tc)
    ensures r == UpdateLineItem(tc, unique, name, raw)
  {
    if StatusOf(tc) != Draft {
      return Err(InvalidState);
    }
    var i := 0;
    while i < |tc.lines|
      invariant 0 <= i <= |tc.lines|
      invariant forall j :: 0 <= j < i ==> tc.lines[j].uniqueIdentifier != unique || FieldNamed(name).None?
    {
      if tc.lines[i].uniqueIdentifier == unique {
        if name == "workDate" {
          return Err(NotFound);
        }
        var field := FieldNamed(name);
        if field.Some? {
          var parsed := Parse(field.value, raw);
          if parsed.None? {
            return Err(ValidationError);
          }
          return Ok(tc.(lines := tc.lines[i := Set(tc.lines[i], field.value, parsed.value)]));
        }
      }
      i := i + 1;
    }
    return Err(NotFound);
  }
}
