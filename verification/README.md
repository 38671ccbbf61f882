# Timecard lifecycle — a Dafny model

This project models the core of a timesheet REST service: the lifecycle of one
timecard, as the `TimesheetsController` drives it. A timecard belongs to a
worker (its owner, the "resource"). It holds time-entry lines and an
append-only ledger of transitions. Its status is never stored. It is the target
of the transition appended last: Draft after creation, then Submitted, and
finally Approved, Rejected or Cancelled. Every operation checks its guards in a
fixed order. It answers either with the new timecard or with one error kind:
NotFound, InvalidState, EmptyTimecard, MissingTransition, or ValidationError
when a field's parser rejects the text.

Modules, one per component:

- `Common` (common.dfy): identifiers, `Option`, the `Error` kinds and `Result`.
- `TransitionLedger` (transitions.dfy): statuses, transition kinds, the
  lifecycle graph, well-formed ledgers and the "latest transition into S" query.
- `LineLedger` (lines.dfy): the line record, the scan by unique identifier, the
  closed set of patchable field names with their parsers, and the
  presentation order of a listing.
- `Timecards` (timecards.dfy): the aggregate and its guarded operations. It
  also holds `WellFormed`, the invariant of every card the operations produce,
  and two methods that follow the controller's scan over the lines and its exits.
  Each is proved to compute what the functional definition states.
- `Timesheets` (timesheets.dfy): commands against a keyed repository
  (`map<TimecardId, Timecard>`), sessions of commands, and the preservation
  lemmas.
- `Scenarios` (scenarios.dfy): worked lifecycles with a worker W and a manager M.

Assumptions about code outside `TimesheetsController.cs`:

- The model types (`Timecard`, `TimecardLine`, `Transition`) are not part of
  this model. `Timecard.Status` is taken to be the target of the last
  transition.
- `TimecardLine.WorkDate` is taken to be a stored field, not derived from
  `Year`, `Week` and `Day`. So patching those fields leaves the work date
  as it was.
- `new Timecard(person.Id)` is taken to start with no lines and no
  transitions. `new Transition(entered)` is taken to record an Entered
  transition that targets Draft, stamped with the clock.
- `Timecard.AddLine` is taken to append one line. The line arrives already
  annotated (its identifier and recorded stamp set).
- A transition's timestamp and a new card's identifier come from the clock and
  from GUID generation. Both are parameters here.
- `ReplaceLine` and `UpdateLineItem` edit the lines of a variable `document`
  that the controller never declares. The model applies those edits to the
  lines of the timecard found under the requested id.

In three places the code does something a reader might not expect. The
model follows the code:

- One might expect EmptyTimecard whenever the card has no lines. But `Submit`
  tests the status before emptiness, so EmptyTimecard is reported only for a
  draft. An empty card that was cancelled is refused with
  InvalidState (`Scenarios.EmptyCancelledCardSubmit`).
- The transition queries gate on the current status. After an approval,
  the submittal query answers MissingTransition, although the submittal is
  still in the history (`Scenarios.ApprovalByManager`).
- An unrecognised field name falls through the chain of tests and the scan
  moves on to the next line. The net answer is NotFound, which
  `Timecards.UpdateLineItemScan` proves.

A consequence the proofs bring out: no edge of the lifecycle graph leads back
to Draft, so a well-formed ledger holds at most three entries. Each target
appears at most once. So the "latest by OccurredAt" query always answers with
the last entry, whatever the timestamps are (`TransitionLedger.LatestIsLast`).

## Model

| member | source | states |
|---|---|---|
| `Timecards.Create` | assignments/1/restapi/Controllers/TimesheetsController.cs:60-64 | A new card is owned by its creator and has no lines. Its history is exactly the creator's Entered record, so its status is Draft, and it is well-formed. |
| `Timesheets.CreateIn` | assignments/1/restapi/Controllers/TimesheetsController.cs:60-66 | Creation stores, under a fresh key, a well-formed Draft card owned by the creator. Its history is exactly the creator's Entered record, stamped now. Every other stored card is untouched. |
| `Timecards.CheckDelete` | assignments/1/restapi/Controllers/TimesheetsController.cs:85-88 | Deletion is allowed exactly from Draft or Cancelled; any other status gives InvalidState. |
| `Timesheets.Delete` | assignments/1/restapi/Controllers/TimesheetsController.cs:78-92 | A missing id gives NotFound. A stored card goes exactly when it is Draft or Cancelled, and other cards are unchanged; otherwise InvalidState. |
| `Timecards.AddLine` | assignments/1/restapi/Controllers/TimesheetsController.cs:130-141 | It succeeds exactly on a draft, otherwise InvalidState. On success the given line is appended after the old lines, the transitions are unchanged and the status stays Draft. |
| `Timecards.ReplaceLine` | assignments/1/restapi/Controllers/TimesheetsController.cs:158-178 | An owner mismatch gives NotFound, checked before the Draft check (InvalidState). Success comes exactly when some line has the identifier. Only the first such line is replaced, in place, and the length and the transitions are unchanged. |
| `Timecards.ReplaceLineScan` | assignments/1/restapi/Controllers/TimesheetsController.cs:151-178 | The controller's for-loop, scanning from the front and replacing at the first hit, computes exactly `ReplaceLine`. |
| `Timecards.UpdateLineItem` | assignments/1/restapi/Controllers/TimesheetsController.cs:190-272 | Not Draft gives InvalidState. A missing line or an unrecognised name (including "workDate") gives NotFound. Unparsable text gives ValidationError. On success exactly the named field of the first matching line takes the parsed value and nothing else changes. |
| `Timecards.UpdateLineItemScan` | assignments/1/restapi/Controllers/TimesheetsController.cs:195-272 | The controller's loop computes exactly `UpdateLineItem`. In the loop "workDate" returns at once and an unknown name falls through to the next line. |
| `LineLedger.IndexOf` | assignments/1/restapi/Controllers/TimesheetsController.cs:168-170 | The scan answers the first index whose line has the identifier, and None exactly when no line has it. |
| `LineLedger.FieldNamed` | assignments/1/restapi/Controllers/TimesheetsController.cs:199-269 | The closed dispatch recognises a name exactly when some patchable field is called by it; "workDate" and all other names are unrecognised. |
| `LineLedger.NamesRoundTrip` | assignments/1/restapi/Controllers/TimesheetsController.cs:199-269 | Every patchable field's name dispatches back to that field. |
| `LineLedger.Parse` | assignments/1/restapi/Controllers/TimesheetsController.cs:201-266 | Each field uses its own parser (date, float, Int32, Guid, DayOfWeek). It fails exactly when that parser fails, and otherwise yields exactly the parser's result as the new value. Version and project take the text as is and never fail. |
| `LineLedger.Set` | assignments/1/restapi/Controllers/TimesheetsController.cs:202-266 | Setting a field gives it the new value and leaves every other field of the line, the work date and the resource unchanged. |
| `LineLedger.OnlyFieldChangedDetermines` | assignments/1/restapi/Controllers/TimesheetsController.cs:202-266 | "Only field f changed to v" determines the line completely, so `Set` is its unique solution. |
| `LineLedger.Insert` | assignments/1/restapi/Controllers/TimesheetsController.cs:107-109 | Insertion adds exactly one occurrence of the line and introduces no other line. |
| `LineLedger.InsertOrdered` | assignments/1/restapi/Controllers/TimesheetsController.cs:107-109 | Inserting into a listing ordered by work date, then recorded stamp, keeps it ordered. |
| `LineLedger.InsertStable` | assignments/1/restapi/Controllers/TimesheetsController.cs:107-109 | Insertion puts the line in front of every line sharing its key and keeps the order of the lines of every key. |
| `LineLedger.PresentationOrder` | assignments/1/restapi/Controllers/TimesheetsController.cs:107-109 | The listing holds the same lines (as a multiset), ordered by work date and then by recorded stamp. Lines sharing both keys keep their stored order, as the stable OrderBy/ThenBy does. |
| `Timesheets.ListLines` | assignments/1/restapi/Controllers/TimesheetsController.cs:103-116 | A missing id gives NotFound. Otherwise the card's lines are returned as a permutation in presentation order, with ties kept in stored order. |
| `Timecards.Submit` | assignments/1/restapi/Controllers/TimesheetsController.cs:309-330 | Guards apply in order: not Draft gives InvalidState, then no lines gives EmptyTimecard, then actor ≠ owner gives InvalidState. On success exactly one Submittal by the actor is appended, lines are unchanged and the status becomes Submitted. |
| `Timecards.Cancel` | assignments/1/restapi/Controllers/TimesheetsController.cs:385-401 | It succeeds exactly from Submitted (any actor) or from Draft by the owner, otherwise InvalidState. It appends exactly one Cancellation, and the status becomes Cancelled. |
| `Timecards.Reject` | assignments/1/restapi/Controllers/TimesheetsController.cs:456-473 | It succeeds exactly when Submitted and actor ≠ owner, otherwise InvalidState. It appends exactly one Rejection, and the status becomes Rejected. |
| `Timecards.Approve` | assignments/1/restapi/Controllers/TimesheetsController.cs:528-545 | It succeeds exactly when Submitted and actor ≠ owner, otherwise InvalidState. It appends exactly one Approval, and the status becomes Approved. |
| `TransitionLedger.Append` | assignments/1/restapi/Controllers/TimesheetsController.cs:326 | Appending keeps the old history as a prefix and makes the new entry's target the current status. |
| `TransitionLedger.LatestWithTarget` | assignments/1/restapi/Controllers/TimesheetsController.cs:353-356 | It answers an entry with target S that has the greatest timestamp, the earliest appended among ties (stable descending sort). It answers None exactly when no entry has target S. |
| `TransitionLedger.TiesPickEarliest` | assignments/1/restapi/Controllers/TimesheetsController.cs:353-356 | In the ledger [Submittal by 1 at 5, Submittal by 2 at 5], the query for Submitted answers index 0, the first appended. |
| `Timecards.TransitionInto` | assignments/1/restapi/Controllers/TimesheetsController.cs:351-362 | A query for S succeeds exactly when the current status is S, otherwise MissingTransition. It answers an entry of the history with target S, as late as any other. |
| `Timecards.GetSubmittal` | assignments/1/restapi/Controllers/TimesheetsController.cs:351-362 | It answers a Submitted-target entry of the history, as late as any other, exactly when the status is Submitted, otherwise MissingTransition. |
| `Timecards.GetCancellation` | assignments/1/restapi/Controllers/TimesheetsController.cs:422-433 | It answers a Cancelled-target entry of the history, as late as any other, exactly when the status is Cancelled, otherwise MissingTransition. |
| `Timecards.GetRejection` | assignments/1/restapi/Controllers/TimesheetsController.cs:494-505 | It answers a Rejected-target entry of the history, as late as any other, exactly when the status is Rejected, otherwise MissingTransition. |
| `Timecards.GetApproval` | assignments/1/restapi/Controllers/TimesheetsController.cs:566-577 | It answers an Approved-target entry of the history, as late as any other, exactly when the status is Approved, otherwise MissingTransition. |
| `Timecards.QueryAnswersLast` | assignments/1/restapi/Controllers/TimesheetsController.cs:351-358 | On a well-formed card whose status is S, the query for S answers the last transition. |
| `TransitionLedger.LatestIsLast` | assignments/1/restapi/Controllers/TimesheetsController.cs:353-356 | In a well-formed ledger whose current status is S, the latest-with-target-S entry is the last one, whatever the timestamps. |
| `TransitionLedger.EdgeRaisesRank` | assignments/1/restapi/Controllers/TimesheetsController.cs:309-541 | Every lifecycle step the guards allow raises the status rank, and none leaves a terminal status. |
| `TransitionLedger.RankGrowth` | assignments/1/restapi/Controllers/TimesheetsController.cs:309-541 | Along a well-formed ledger the rank grows by at least one per entry. |
| `TransitionLedger.TargetsDistinct` | assignments/1/restapi/Controllers/TimesheetsController.cs:309-541 | A well-formed ledger never repeats a target and has at most three entries. |
| `Timesheets.Apply` | assignments/1/restapi/Controllers/TimesheetsController.cs:130-545 | Any successful command keeps id and owner, keeps the history as a prefix and adds at most one transition. It changes lines only on a draft, and a terminal card accepts no command. |
| `Timesheets.AppendKeepsWellFormed` | assignments/1/restapi/Controllers/TimesheetsController.cs:322-326 | Appending a transition along a lifecycle edge, with its duty respected, keeps a card well-formed. |
| `Timesheets.ApplyKeepsWellFormed` | assignments/1/restapi/Controllers/TimesheetsController.cs:309-545 | Every successful command preserves the invariant: ledger on the lifecycle graph, segregated duties, and lines present once submitted. |
| `Timesheets.Run` | assignments/1/restapi/Controllers/TimesheetsController.cs:305-335 | Over any session of requests (failed ones storing nothing) the identity and owner stay and the starting history remains a prefix. |
| `Timesheets.RunKeepsWellFormed` | assignments/1/restapi/Controllers/TimesheetsController.cs:309-545 | A well-formed card stays well-formed through any session. |
| `Timesheets.SessionAudit` | assignments/1/restapi/Controllers/TimesheetsController.cs:318-321 | After any session, the history starts with the creator's Entered record and has at most three entries. Every approval directly follows the owner's submittal and is made by someone else. |
| `Timesheets.Execute` | assignments/1/restapi/Controllers/TimesheetsController.cs:305-335 | A missing id gives NotFound for every command. A failed command leaves the store unchanged. A successful one replaces only the card at id with the command's result. |
| `Timesheets.Query` | assignments/1/restapi/Controllers/TimesheetsController.cs:347-368 | A missing id gives NotFound. Otherwise it succeeds exactly when the stored card's status is S, answering an entry of its history with target S that is as late as any other. Otherwise it gives MissingTransition. |
| `Timesheets.OperationsKeepConsistent` | assignments/1/restapi/Controllers/TimesheetsController.cs:60-92 | Create, Delete and every command keep every stored card well-formed under its own key. |
| `Scenarios.SubmitEmptyCard` | assignments/1/restapi/Controllers/TimesheetsController.cs:314-317 | Submitting a fresh card gives EmptyTimecard. |
| `Scenarios.SubmitByOther` | assignments/1/restapi/Controllers/TimesheetsController.cs:318-321 | A card with one line submitted by someone other than the owner gives InvalidState. |
| `Scenarios.SelfApproval` | assignments/1/restapi/Controllers/TimesheetsController.cs:532-535 | The owner approving their own submitted card gives InvalidState. |
| `Scenarios.ApprovalByManager` | assignments/1/restapi/Controllers/TimesheetsController.cs:528-577 | A manager's approval succeeds and the approval query returns it. The submittal query gives MissingTransition though the submittal is still in the history. |
| `Scenarios.WorkDateNeverPatched` | assignments/1/restapi/Controllers/TimesheetsController.cs:190-209 | Patching "workDate" gives NotFound on a draft, even for an existing line, and InvalidState otherwise. |
| `Scenarios.CancelTwice` | assignments/1/restapi/Controllers/TimesheetsController.cs:385-388 | A second cancellation of a cancelled card fails with InvalidState, so no duplicate Cancellation is recorded. |
| `Scenarios.EmptyCancelledCardSubmit` | assignments/1/restapi/Controllers/TimesheetsController.cs:309-317 | A card cancelled while empty is refused on submit with InvalidState, not EmptyTimecard. |

## Left out

- Parse failures: in `UpdateLineItem` the controller lets the library parser's exception escape, so nothing is stored and no typed answer is given. The model answers ValidationError instead.
- HTTP routing, attributes, content types and the mapping of errors to 404/409 responses: the operations return a `Result` instead.
- Logging: the `logger.LogInformation` calls have no effect on state.
- `GetAll` ordering by `Opened`: the `Opened` field is defined in a model file that is not part of this model.
- `GetOne` and `GetTransitions`: they are plain lookups of the repository map and are not modelled as separate members.
- Response bodies: the annotated line, the line list and the new transition are all read off the resulting card.
- Repository storage and concurrency: the repository is an immutable map, and each request is one read-modify-write with no interleaving.
- Line annotation inside `Timecard.AddLine` and `AnnotatedDocumentLine` (identifier assignment, recorded stamp): that code is not part of this model, and the line arrives annotated.
- Clock and GUID generation: they are parameters (`now`, the new card's id).
- Text parsing by `DateTime.Parse`, `float.Parse`, `Int32.Parse`, `Guid.Parse` and `Enum.Parse`: each parser's outcome arrives in `RawUpdate`. Formats, cultures and the Int32 range are not modelled. Numeric day codes outside 0..6 are kept as `Unnamed(code)`, and NaN and the infinities as their own `Float` values.
- Float rounding: a finite `Hours` or `LineNumber` is an exact real, with no single-precision rounding.
- Line lookup compares `UniqueIdentifier.ToString()` with the route text. The model compares identifiers directly, and GUID formatting is not modelled.
- The `FirstOrDefault` null answer of a query is unreachable once the status matches (`Timecards.TransitionInto` proves success), so no null transition is modelled.
