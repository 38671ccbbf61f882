/** The timesheet operations as a caller sees them: a command addressed to one
    timecard of a keyed repository, loaded, checked, and stored back only on
    success; plus the read-only queries. */
module Timesheets {
  import opened Common
  import opened TransitionLedger
  import opened LineLedger
  import opened Timecards

  /** One state-changing request on a timecard. */
  datatype Command =
    | Add(line: Line)
    | Replace(unique: LineId, replacement: Line)
    | Patch(target: LineId, fieldName: string, raw: RawUpdate)
    | SubmitBy(submitter: PersonId)
    | CancelBy(canceller: PersonId)
    | RejectBy(rejecter: PersonId)
    | ApproveBy(approver: PersonId)

  /** Runs one command against a timecard. Whatever the command, a success
      keeps the identity and the owner, keeps the old history as a prefix
      and adds at most one transition, and changes lines only on a draft;
      a card in a terminal status accepts no command at all. */
  function Apply(tc: Timecard, cmd: Command, now: int): (r: Result<Timecard>)
    requires HasHistory(tc)
    ensures r.Ok? ==> r.value.id == tc.id && r.value.owner == tc.owner && HasHistory(r.value)
    ensures r.Ok? ==> |tc.transitions| <= |r.value.transitions| <= |tc.transitions| + 1
    ensures r.Ok? ==> r.value.transitions[..|tc.transitions|] == tc.transitions
    ensures r.Ok? && StatusOf(tc) != Draft ==> r.value.lines == tc.lines
    ensures Terminal(StatusOf(tc)) ==> r.Err?
  {
    match cmd
    case Add(line) => AddLine(tc, line)
    case Replace(unique, line) => ReplaceLine(tc, unique, line)
    case Patch(unique, name, raw) => UpdateLineItem(tc, unique, name, raw)
    case SubmitBy(actor) => Submit(tc, actor, now)
    case CancelBy(actor) => Cancel(tc, actor, now)
    case RejectBy(actor) => Reject(tc, actor, now)
    case ApproveBy(actor) => Approve(tc, actor, now)
  }

  /** Appending one transition along an edge of the lifecycle graph, with
      its duty respected and lines present when needed, keeps a timecard
      well-formed. */
  lemma AppendKeepsWellFormed(tc: Timecard, tc': Timecard, k: Kind, actor: PersonId, now: int)
    requires WellFormed(tc)
    requires AppendsOne(tc, tc', k, actor, now)
    requires Edge(StatusOf(tc), k)
    requires DutyRespected(tc'.owner, tc'.transitions, |tc.transitions|)
    requires TargetOf(k) == Submitted || TargetOf(k) == Approved || TargetOf(k) == Rejected ==> |tc.lines| > 0
    ensures WellFormed(tc')
  {
    var ts, ts' := tc.transitions, tc'.transitions;
    var n := |ts|;
    assert forall i :: 0 <= i < n ==> ts'[i] == ts[i] by {
      forall i | 0 <= i < n
        ensures ts'[i] == ts[i]
      {
        assert ts'[..n][i] == ts'[i];
      }
    }
    forall i | 0 <= i < |ts'|
      ensures DutyRespected(tc'.owner, ts', i)
    {
      if i < n {
        assert DutyRespected(tc.owner, ts, i);
      }
    }
  }

  /** Every successful command keeps a timecard well-formed. */
  lemma ApplyKeepsWellFormed(tc: Timecard, cmd: Command, now: int)
    requires WellFormed(tc)
    ensures Apply(tc, cmd, now).Ok? ==> WellFormed(Apply(tc, cmd, now).value)
  {
    var r := Apply(tc, cmd, now);
    if r.Ok? {
      match cmd
      case Add(_) =>
      case Replace(_, _) =>
      case Patch(_, _, _) =>
      case SubmitBy(actor) =>
        AppendKeepsWellFormed(tc, r.value, Submittal, actor, now);
      case CancelBy(actor) =>
        AppendKeepsWellFormed(tc, r.value, Cancellation, actor, now);
      case RejectBy(actor) =>
        AppendKeepsWellFormed(tc, r.value, Rejection, actor, now);
      case ApproveBy(actor) =>
        AppendKeepsWellFormed(tc, r.value, Approval, actor, now);
    }
  }

  /** One request of a session: a command and the clock reading it sees. */
  datatype Step = Step(cmd: Command, now: int)

  /** A session of requests on one timecard; a failed request stores
      nothing, so the card goes on unchanged. The history only ever grows:
      the starting history stays a prefix of the final one. */
  function Run(tc: Timecard, steps: seq<Step>): (r: Timecard)
    requires HasHistory(tc)
    ensures HasHistory(r) && r.id == tc.id && r.owner == tc.owner
    ensures |tc.transitions| <= |r.transitions| && r.transitions[..|tc.transitions|] == tc.transitions
    decreases |steps|
  {
    if |steps| == 0 then tc
    else
      var next := match Apply(tc, steps[0].cmd, steps[0].now)
        case Ok(tc') => tc'
        case Err(_) => tc;
      Run(next, steps[1..])
  }

  /** A well-formed timecard stays well-formed through any session. */
  lemma {:induction false} RunKeepsWellFormed(tc: Timecard, steps: seq<Step>)
    requires WellFormed(tc)
    ensures WellFormed(Run(tc, steps))
    decreases |steps|
  {
    if |steps| > 0 {
      ApplyKeepsWellFormed(tc, steps[0].cmd, steps[0].now);
      var next := match Apply(tc, steps[0].cmd, steps[0].now)
        case Ok(tc') => tc'
        case Err(_) => tc;
      RunKeepsWellFormed(next, steps[1..]);
    }
  }

  /** Whatever happens after creation, the first entry of the history is the
      creator's Entered record, an approval is always directly preceded by
      the owner's submittal and made by someone else, and the history never
      exceeds three entries. */
  lemma SessionAudit(id: TimecardId, person: PersonId, created: int, steps: seq<Step>)
    ensures var tc := Run(Create(id, person, created), steps);
      && tc.transitions[0] == Record(Entered, person, created)
      && |tc.transitions| <= 3
      && forall i :: 0 <= i < |tc.transitions| && tc.transitions[i].kind == Approval ==>
           i > 0 && tc.transitions[i - 1].kind == Submittal
           && tc.transitions[i - 1].actor == person && tc.transitions[i].actor != person
  {
    var tc := Run(Create(id, person, created), steps);
    RunKeepsWellFormed(Create(id, person, created), steps);
    TargetsDistinct(tc.transitions);
    var ts := tc.transitions;
    forall i | 0 <= i < |ts| && ts[i].kind == Approval
      ensures i > 0 && ts[i - 1].kind == Submittal && ts[i - 1].actor == person && ts[i].actor != person
    {
      assert DutyRespected(tc.owner, ts, i);
      assert DutyRespected(tc.owner, ts, i - 1);
    }
  }

  // ----- The repository -----

  /** The keyed store of timecards. */
  type Repository = map<TimecardId, Timecard>

  /** Every stored card has been created, so it has a history. */
  predicate AllCreated(repo: Repository)
  {
    forall k :: k in repo ==> HasHistory(repo[k])
  }

  /** Every stored card sits under its own identity and is well-formed. */
  predicate Consistent(repo: Repository)
  {
    forall k :: k in repo ==> repo[k].id == k && WellFormed(repo[k])
  }

  /** Stores a fresh draft for person under a new identity; nothing else in
      the store changes. */
  function CreateIn(repo: Repository, id: TimecardId, person: PersonId, now: int): (r: Repository)
    requires id !in repo
    ensures r.Keys == repo.Keys + {id}
    ensures forall k :: k in repo ==> r[k] == repo[k]
    ensures r[id].id == id && r[id].owner == person && r[id].lines == []
    ensures HasHistory(r[id]) && StatusOf(r[id]) == Draft
    ensures r[id].transitions == [Record(Entered, person, now)] && WellFormed(r[id])
  {
    repo[id := Create(id, person, now)]
  }

  /** Removes a card: NotFound when absent, InvalidState unless it is a
      draft or cancelled; otherwise exactly that key goes. */
  function Delete(repo: Repository, id: TimecardId): (r: Result<Repository>)
    requires AllCreated(repo)
    ensures id !in repo ==> r == Err(NotFound)
    ensures id in repo ==> (r.Ok? <==> StatusOf(repo[id]) == Draft || StatusOf(repo[id]) == Cancelled)
    ensures id in repo && r.Err? ==> r.error == InvalidState
    ensures r.Ok? ==> r.value.Keys == repo.Keys - {id}
    ensures r.Ok? ==> forall k :: k in r.value ==> r.value[k] == repo[k]
  {
    if id !in repo then Err(NotFound)
    else match CheckDelete(repo[id])
      case Some(e) => Err(e)
      case None => Ok(repo - {id})
  }

  /** Loads card id, runs the command, and stores the result under the same
      key on success. A missing card is NotFound whatever the command; a
      failed command leaves the store as it was; a successful one changes
      only the card at id. */
  function Execute(repo: Repository, id: TimecardId, cmd: Command, now: int): (r: Result<Repository>)
    requires AllCreated(repo)
    ensures id !in repo ==> r == Err(NotFound)
    ensures id in repo ==> (r.Ok? <==> Apply(repo[id], cmd, now).Ok?)
    ensures id in repo && r.Err? ==> r.error == Apply(repo[id], cmd, now).error
    ensures r.Ok? ==> r.value.Keys == repo.Keys && r.value[id] == Apply(repo[id], cmd, now).value
    ensures r.Ok? ==> forall k :: k in repo && k != id ==> r.value[k] == repo[k]
    ensures r.Ok? ==> AllCreated(r.value)
  {
    if id !in repo then Err(NotFound)
    else match Apply(repo[id], cmd, now)
      case Err(e) => Err(e)
      case Ok(tc) => Ok(repo[id := tc])
  }

  /** The four transition queries of a stored card (for Submitted, Cancelled,
      Rejected and Approved; a query for Draft is a generalisation the
      controller does not offer): NotFound when absent, otherwise the card's
      answer for the status asked about. */
  function Query(repo: Repository, id: TimecardId, s: Status): (r: Result<Transition>)
    requires AllCreated(repo)
    ensures id !in repo ==> r == Err(NotFound)
    ensures id in repo ==> (r.Ok? <==> StatusOf(repo[id]) == s)
    ensures id in repo && r.Err? ==> r.error == MissingTransition
    ensures r.Ok? ==> r.value in repo[id].transitions && r.value.to == s
    ensures r.Ok? ==> forall t :: t in repo[id].transitions && t.to == s ==> t.occurredAt <= r.value.occurredAt
  {
    if id !in repo then Err(NotFound) else TransitionInto(repo[id], s)
  }

  /** The listing of a card's lines: NotFound when absent, otherwise the same
      lines in presentation order, ties kept in stored order. */
  function ListLines(repo: Repository, id: TimecardId): (r: Result<seq<Line>>)
    ensures r.Err? <==> id !in repo
    ensures r.Err? ==> r.error == NotFound
    ensures r.Ok? ==> multiset(r.value) == multiset(repo[id].lines) && InPresentationOrder(r.value)
    ensures r.Ok? ==> forall wd, rec :: WithKey(r.value, wd, rec) == WithKey(repo[id].lines, wd, rec)
  {
    if id !in repo then Err(NotFound) else Ok(PresentationOrder(repo[id].lines))
  }

  /** Creation, deletion and every command keep the store consistent. */
  lemma OperationsKeepConsistent(repo: Repository, id: TimecardId, person: PersonId, cmd: Command, now: int)
    requires Consistent(repo)
    ensures id !in repo ==> Consistent(CreateIn(repo, id, person, now))
    ensures Delete(repo, id).Ok? ==> Consistent(Delete(repo, id).value)
    ensures Execute(repo, id, cmd, now).Ok? ==> Consistent(Execute(repo, id, cmd, now).value)
  {
    if id in repo {
      ApplyKeepsWellFormed(repo[id], cmd, now);
    }
  }
}
