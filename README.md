# Dental practice training simulator: the session transition engine

The simulator keeps one aggregate session state: patients, calendar
appointments, the pinboard, claims, pre-authorisations, recall types, toasts,
an action log, and an assessment grid of completed training steps. It changes
that state only through one transition function. The function takes the
state and one action from a closed vocabulary, and returns a new state. As a
side effect of the same transition, many actions mark cells of the
assessment grid through the helper `verifyStep`.

This project models that function and its helper as pure Dafny functions. It
then proves what each action does and what holds across actions and whole
sessions.

- `Domain` (`domain.dfy`) holds the records and the session state. Each
  record is trimmed to the fields the engine reads or writes, plus a few
  fields it only carries along: a patient's name and kin reference
  (`familyLinkId`), a chart entry's tooth number, the patient a claim or
  pre-authorisation is for, and a recall type's short name.
- `Text` (`text.dfy`) holds ASCII lower-casing and substring search.
- `Grid` (`grid.dfy`) holds the grid of completed steps: cells, marking a
  cell, its initial shape, and growth.
- `Records` (`records.dfy`) holds the `find`, `filter` and `map` rewrites of
  the collections, and the computation of the next patient id.
- `Reducer` (`reducer.dfy`) holds the action vocabulary, the initial state,
  `VerifyStep`, and `Reduce`.
  - Thirteen functions hold the branches that are more than one line
    (`OnStartAssessment`, `OnRestartAll`, `OnSelectPatient`, `OnAddPatient`,
    shared by both adds, `OnUpdatePatient`, `OnScheduleAppointments`,
    `OnUpdateAppointment`, `OnMoveAppointment`, `OnPinAppointment`,
    `OnAddLedgerEntry`, `OnUpdateChart`, `OnLogAction`, `OnAddToast`). The
    one-line branches (END_ASSESSMENT, ADD_CLAIM, ADD_PREAUTH,
    BULK_UPDATE_CHART, ADD_RECALL_TYPE, DELETE_PATIENT, REMOVE_TOAST) are
    written inline in `Reduce`.
  - Each branch's sequence of `if (...) verifyStep(...)` tests is a table of
    `Check`s. The `Grade` fold applies the table in order.
- `Transitions` (`transitions.dfy`) has one or more lemmas per branch. They
  state every field the branch changes, exactly which grid cells it marks,
  and that nothing else changes.
- `Sessions` (`sessions.dfy`) holds the properties across actions:
  - one declarative table, `Earns`, of the cells each action marks;
  - the exact grid change and monotonicity outside the resets;
  - the grid's shape;
  - distinct patient ids and the growth of the largest id;
  - attempt counting.
- `Traces` (`traces.dfy`) lifts those properties to whole sessions (action
  sequences).
- `Scenarios` (`scenarios.dfy`) holds concrete sessions: an add after a
  numbered seed, a booking with Dr. Smith, and a copay posting.

### Where the code and the design description differ

The model follows the code in each of these cases.

- **Family link.** A family-member add does not record the patient it links
  to. The link in the payload is read and dropped (`FamilyLinkNotStored`).
- **Move source.** A move ignores its `source` collection. It rewrites
  appointments on the calendar only (`MoveIgnoresSource`).
- **Patient ids are not monotonic across deletes.** Adding after deleting the
  patient with the largest id can reissue that id (`DeletedTopIdCanBeReissued`,
  `DeleteThenAddReissues`). The claim that the largest id equals the seed
  maximum plus the number of adds holds only for sessions without deletes and
  resets (`Traces.RunMaxId`).
- **Patient update replaces wholesale.** An update replaces the whole record,
  including its ledger and chart, with the payload (`UpdatePatientReplaces`).
  So ledgers and charts are not append-only under every action. Three kinds
  break it: an update replaces them, a delete drops the patient together
  with its ledger and chart, and the two resets restore the seed patients.
  Under every other action the patient list only grows at its end, ids stay
  in place, and ledgers and charts only grow at their ends
  (`Sessions.LedgersAndChartsGrow`, `Traces.RunLedgersAndChartsGrow`).
- **Calendar and pinboard can share ids.** Pinning, updating and moving keep
  the calendar and the pinboard free of shared ids when they were free of
  them before (`PinKeepsPlacementsDisjoint`,
  `UpdateAppointmentKeepsPlacementsDisjoint`, `MoveKeepsPlacementsDisjoint`).
  Updating and moving only rewrite calendar entries in place. Scheduling an
  appointment whose id is already pinned breaks this, because that branch
  checks nothing (`SchedulePinnedIdShared`).

## Model

| member | source | states |
|---|---|---|
| Text.LowerChar | context/SimulationContext.tsx:235 | ASCII upper-case letters map to their lower-case letters, every other character is kept, and the result is never an upper-case letter |
| Text.ToLower | context/SimulationContext.tsx:235 | the lower-cased string has the same length and is lower-cased character by character |
| Text.Contains | context/SimulationContext.tsx:235 | `includes` holds exactly when the pattern occurs at some position of the string |
| Grid.Falses | context/SimulationContext.tsx:120 | `Array(n).fill(false)` has length n and no flag set |
| Grid.SetStep | context/SimulationContext.tsx:131-133 | after writing step i, the list has step i set, every other step is kept, and a list too short is padded with false up to index i |
| Grid.MarkCell | context/SimulationContext.tsx:130-135 | marking adds the module if absent, sets exactly cell (m, i), and keeps the other modules and the list length when i is in range |
| Grid.InitialGrid | context/SimulationContext.tsx:119-122 | the initial grid has every module of the step counts with its number of steps, and no cell done |
| Grid.MarkCellKeepsShape | context/SimulationContext.tsx:130-135 | marking a cell inside the shape keeps the grid's shape |
| Grid.MarkCellIdempotent | context/SimulationContext.tsx:132-137 | marking the same cell twice equals marking it once |
| Records.MaxId | context/SimulationContext.tsx:154 | `max(ids, 0)` is at least 0, bounds every id, and is 0 or some patient's id |
| Records.NextPatientId | context/SimulationContext.tsx:154 | the next id is at least 1, larger than every existing id, and 1 for no patients |
| Records.FindPatient | context/SimulationContext.tsx:169 | `find` returns nothing exactly when no patient has the id, and otherwise the first patient with it |
| Records.ReplacePatient | context/SimulationContext.tsx:170 | the update's `map` keeps every id in its place, puts the payload wherever the id matches, and keeps every other record |
| Records.RemovePatient | context/SimulationContext.tsx:281 | `filter` keeps exactly the patients with other ids, never lengthens the list, and returns the list itself when no patient has the id |
| Records.RemovePatientAppend | context/SimulationContext.tsx:281 | removal distributes over concatenation, so it keeps the order and the repetitions of the remaining patients |
| Records.RemovePatientKeepsUnique | context/SimulationContext.tsx:281 | removing patients keeps the remaining ids distinct |
| Records.MaxIdCharacterized | context/SimulationContext.tsx:154 | any non-negative bound of all ids that is 0 or some id equals the computed maximum |
| Records.ExtendsTransitive | context/SimulationContext.tsx:227-255 | growth at the ends of the patient list, the ledgers and the charts composes over two steps |
| Records.SameIdsAgree | context/SimulationContext.tsx:170 | lists with the same ids in the same places agree on distinctness and on the largest id |
| Records.AppendNextId | context/SimulationContext.tsx:154-156 | appending a patient with the next id keeps ids distinct and raises the largest id by exactly one |
| Records.AppendLedger | context/SimulationContext.tsx:227-230 | the posting's `map` keeps every id in its place, appends the line to the ledger of every patient with the id, and keeps every other record |
| Records.AppendChart | context/SimulationContext.tsx:247-255 | the chart `map`s of lines 247 and 255 keep every id in its place, append the entries to the chart of every patient with the id, and keep every other record |
| Records.FindAppointment | context/SimulationContext.tsx:204 | `find` returns nothing exactly when no appointment has the id, and otherwise the first appointment with it |
| Records.ReplaceAppointment | context/SimulationContext.tsx:205 | the update's `map` keeps the length and every id in its place, puts the payload wherever the id matches, and keeps every other appointment |
| Records.RescheduleAppointment | context/SimulationContext.tsx:218 | the move's `map` keeps the length and every id in its place, rewrites only start time and operatory where the id matches, and keeps every other appointment |
| Records.RemoveAppointment | context/SimulationContext.tsx:222 | `filter` keeps exactly the appointments with other ids, never lengthens the list, and returns the list itself when no appointment has the id |
| Records.RemoveAppointmentAppend | context/SimulationContext.tsx:222 | removal distributes over concatenation, so it keeps the order and the repetitions of the remaining appointments |
| Records.RemoveToast | context/SimulationContext.tsx:284 | `filter` keeps exactly the toasts with other ids, never lengthens the list, and returns the list itself when no toast has the id |
| Records.RemoveToastAppend | context/SimulationContext.tsx:284 | removal distributes over concatenation, so it keeps the order and the repetitions of the remaining toasts |
| Reducer.Initial | context/SimulationContext.tsx:111-124 | the initial state holds the seed patients, selects patient 1, has assessment mode off and 0 attempts, and has a grid of the initial shape with no cell done |
| Reducer.VerifyStep | context/SimulationContext.tsx:129-138 | only the grid changes, cell (m, i) is done afterwards, every other cell keeps its value, and a state whose cell is already done is returned unchanged |
| Reducer.Grade | context/SimulationContext.tsx:231-235 | the chained tests of a branch change only the grid, and afterwards a cell is done exactly when it was done before or some passed test names it |
| Reducer.AlertCount | context/SimulationContext.tsx:174 | the alert count of the test: the number of alerts, 0 when the list is absent |
| Reducer.AddressChanged | context/SimulationContext.tsx:173 | the address test: the payload's address differs from the stored record's, or no record is stored |
| Reducer.AlertAdded | context/SimulationContext.tsx:174 | the alert test: the payload has more alerts than the stored record, or any alert when none is stored |
| Reducer.Deactivated | context/SimulationContext.tsx:177-179 | the status test: the payload is Inactive and the stored record exists and is Active |
| Reducer.AutomationChanged | context/SimulationContext.tsx:182-189 | the automation test: one of the four flags differs from the stored record's, or no record is stored |
| Reducer.PhotoChanged | context/SimulationContext.tsx:192-194 | the photo test: the payload has a non-empty photo that differs from the stored one, or none is stored |
| Reducer.UpdatePatientChecks | context/SimulationContext.tsx:172-194 | the five tests of a patient update in the engine's order, with the cells they name (their meaning is stated by `Transitions.UpdatePatientChecksFire`) |
| Reducer.Rescheduled | context/SimulationContext.tsx:209-212 | the reschedule test: an appointment with the id was stored and its start time or operatory differs from the payload's |
| Reducer.SomeProvider | context/SimulationContext.tsx:200 | `some` over the batch: some appointment has the given provider |
| Reducer.SomeBlock | context/SimulationContext.tsx:201 | `some` over the batch: some appointment is a block |
| Reducer.ScheduleChecks | context/SimulationContext.tsx:199-201 | the three tests of a schedule in the engine's order (meaning stated by `Transitions.ScheduleChecksFire`) |
| Reducer.UpdateAppointmentChecks | context/SimulationContext.tsx:206-214 | the two tests of an appointment update in the engine's order (meaning stated by `Transitions.UpdateAppointmentChecksFire`) |
| Reducer.LedgerChecks | context/SimulationContext.tsx:231-235 | the five tests of a ledger posting in the engine's order (meaning stated by `Transitions.LedgerChecksFire`) |
| Reducer.ChartChecks | context/SimulationContext.tsx:248-252 | the five tests of a chart update in the engine's order (meaning stated by `Transitions.ChartChecksFire`) |
| Reducer.LogActionChecks | context/SimulationContext.tsx:260-269 | the eight tests of a logged action in the engine's order (meaning stated by `Transitions.LogActionChecksFire`) |
| Reducer.Enabled | context/SimulationContext.tsx:222 | the one demand on the caller: a pinned id is on the calendar, as the non-null assertion on the lookup requires |
| Reducer.OnStartAssessment | context/SimulationContext.tsx:143-144 | the START_ASSESSMENT branch: the initial state with assessment mode on and one more attempt (stated by `Transitions.StartAssessmentResets`) |
| Reducer.OnRestartAll | context/SimulationContext.tsx:147-148 | the RESTART_ALL branch: the initial state with the old attempt count (stated by `Transitions.RestartAllResets`) |
| Reducer.OnSelectPatient | context/SimulationContext.tsx:149-152 | the SELECT_PATIENT branch: sets the selection and grades a non-null one (stated by `Transitions.SelectPatientSelects`) |
| Reducer.OnAddPatient | context/SimulationContext.tsx:153-166 | the ADD_PATIENT and ADD_FAMILY_MEMBER branches: the payload appended under the next id, selected, and the given step marked (stated by `Transitions.AddPatientAppendsFreshId` and `Transitions.AddFamilyMemberAppendsFreshId`) |
| Reducer.OnUpdatePatient | context/SimulationContext.tsx:168-195 | the UPDATE_PATIENT branch: replace by id, then grade against the first stored record (stated by `Transitions.UpdatePatientReplaces` and `Transitions.UpdatePatientGrading`) |
| Reducer.OnScheduleAppointments | context/SimulationContext.tsx:197-202 | the SCHEDULE_APPOINTMENTS branch: append the batch, then grade it (stated by `Transitions.ScheduleAppendsInOrder` and `Transitions.ScheduleGrading`) |
| Reducer.OnUpdateAppointment | context/SimulationContext.tsx:203-216 | the UPDATE_APPOINTMENT branch: replace by id, then grade against the first stored appointment (stated by `Transitions.UpdateAppointmentReplaces` and `Transitions.UpdateAppointmentGrading`) |
| Reducer.OnMoveAppointment | context/SimulationContext.tsx:217-220 | the MOVE_APPOINTMENT branch: reschedule every calendar match and mark (0,5) (stated by `Transitions.MoveAppointmentReschedules`) |
| Reducer.OnPinAppointment | context/SimulationContext.tsx:221-224 | the PIN_APPOINTMENT branch: remove from the calendar, append the first match to the pinboard, mark (0,6) (stated by `Transitions.PinMovesToPinboard`) |
| Reducer.OnAddLedgerEntry | context/SimulationContext.tsx:225-237 | the ADD_LEDGER_ENTRY branch: append the line with balance 0, then grade it (stated by `Transitions.LedgerAppendsOneEntry` and `Transitions.LedgerGrading`) |
| Reducer.OnUpdateChart | context/SimulationContext.tsx:246-253 | the UPDATE_CHART branch: append the entry, then grade it (stated by `Transitions.ChartAppendsOne` and `Transitions.ChartGrading`) |
| Reducer.OnLogAction | context/SimulationContext.tsx:258-270 | the LOG_ACTION branch: append the entry, then grade it (stated by `Transitions.LogActionAppends` and `Transitions.LogActionGrading`) |
| Reducer.OnAddToast | context/SimulationContext.tsx:275-278 | the ADD_TOAST branch: append the toast, then grade its message (stated by `Transitions.ToastAppended`) |
| Reducer.Reduce | context/SimulationContext.tsx:127-291 | the transition function, one branch per handled kind and the state itself otherwise; only the two resets touch the undo and redo buffers, which they empty, and assessment mode is switched on only by a start and off only by an end or a restart |
| Transitions.VerifyStepIdempotent | context/SimulationContext.tsx:129-138 | marking twice is marking once; the marked cell is done; no done cell is undone |
| Transitions.AddPatientAppendsFreshId | context/SimulationContext.tsx:153-159 | an add appends exactly the payload with id `max(ids, 0) + 1` (1 for no patients, different from every existing id), selects that id, marks only (1,0), and changes no other field |
| Transitions.AddFamilyMemberAppendsFreshId | context/SimulationContext.tsx:160-167 | a family-member add does the same as an add, but marks only (1,1) |
| Transitions.FamilyLinkNotStored | context/SimulationContext.tsx:161-164 | the result does not depend on the link target, and the new patient keeps the payload's own kin reference |
| Transitions.UpdatePatientReplaces | context/SimulationContext.tsx:169-170 | every record with the payload's id is replaced by the payload, all others and every id are kept, and only patients and grid change |
| Transitions.UpdatePatientChecksFire | context/SimulationContext.tsx:173-194 | the update's tests name (1,2) for an address change, (1,3) for more alerts, (1,4) for an Active to Inactive change, (1,5) for a changed automation flag and (1,6) for a new non-empty photo |
| Transitions.UpdatePatientGrading | context/SimulationContext.tsx:172-194 | after an update, a cell is done exactly when it was done before or one of the five diff conditions against the first stored record holds for it |
| Transitions.DeletePatientRemoves | context/SimulationContext.tsx:280-282 | a delete keeps exactly the patients with other ids, in their order (the result splits at every place of the old list into the removals from both parts), sets the selection to none, and changes nothing else |
| Transitions.SelectPatientSelects | context/SimulationContext.tsx:149-152 | selecting sets the selection to the payload (unchecked), marks (0,0) exactly when a patient is chosen, and changes nothing else |
| Transitions.ScheduleAppendsInOrder | context/SimulationContext.tsx:197-198 | scheduling appends the whole batch to the calendar in order and changes only the calendar and grid |
| Transitions.ScheduleChecksFire | context/SimulationContext.tsx:199-201 | the schedule's tests name (0,1) always, (0,2) when some provider is Dr. Smith and (0,4) when some appointment is a block |
| Transitions.ScheduleGrading | context/SimulationContext.tsx:199-201 | after scheduling, (0,1) is done, (0,2) and (0,4) are done exactly when done before or the batch qualifies, and no other cell changes |
| Transitions.UpdateAppointmentReplaces | context/SimulationContext.tsx:204-205 | every appointment with the payload's id is replaced by the payload, all others are kept, and only the calendar and grid change |
| Transitions.UpdateAppointmentChecksFire | context/SimulationContext.tsx:206-214 | the update's tests name (0,3) for a FIRM payload and (0,5) when the stored appointment had another time or operatory |
| Transitions.UpdateAppointmentGrading | context/SimulationContext.tsx:203-216 | after an update, a cell is done exactly when it was done before, or it is (0,3) and the payload is FIRM, or it is (0,5) and a stored appointment with that id had another start time or operatory |
| Transitions.MoveAppointmentReschedules | context/SimulationContext.tsx:217-220 | a move rewrites the start time and operatory of every calendar appointment with the id, keeps all others, marks only (0,5), and changes nothing else |
| Transitions.MoveIgnoresSource | context/SimulationContext.tsx:218 | the result of a move does not depend on its source collection |
| Transitions.PinMovesToPinboard | context/SimulationContext.tsx:221-224 | for an id on the calendar, pinning removes every appointment with it from the calendar and keeps the others in their order, appends the first one found (unchanged) to the pinboard, marks only (0,6), and changes nothing else |
| Transitions.PinKeepsPlacementsDisjoint | context/SimulationContext.tsx:221-224 | if no id is on both the calendar and the pinboard, pinning keeps it so |
| Transitions.UpdateAppointmentKeepsPlacementsDisjoint | context/SimulationContext.tsx:203-205 | if no id is on both the calendar and the pinboard, an appointment update keeps it so |
| Transitions.MoveKeepsPlacementsDisjoint | context/SimulationContext.tsx:217-218 | if no id is on both the calendar and the pinboard, a move keeps it so |
| Transitions.SchedulePinnedIdShared | context/SimulationContext.tsx:197-198 | scheduling an appointment whose id is on the pinboard leaves that id on both the calendar and the pinboard |
| Transitions.LedgerAppendsOneEntry | context/SimulationContext.tsx:225-230 | posting appends exactly one line, with the generated id and balance 0, to every patient with the id, keeps every other patient, and changes only patients and grid |
| Transitions.LedgerChecksFire | context/SimulationContext.tsx:231-235 | the ledger tests name (2,0) always, (2,1) for a payment of 100, (2,2) for a positive charge, (2,3) for a positive write-off and (2,6) when the lower-cased description contains "refund" |
| Transitions.LedgerGrading | context/SimulationContext.tsx:231-235 | after posting, a cell is done exactly when it was done before or it is one of the ledger cells whose condition holds |
| Transitions.ClaimAppended | context/SimulationContext.tsx:238-241 | a claim is appended, only (2,4) is marked, and nothing else changes |
| Transitions.PreAuthAppended | context/SimulationContext.tsx:242-245 | a pre-authorisation is appended, only (2,5) is marked, and nothing else changes |
| Transitions.ChartAppendsOne | context/SimulationContext.tsx:246-247 | a chart update appends the entry to the chart of every patient with the id, keeps every other patient, and changes only patients and grid |
| Transitions.ChartChecksFire | context/SimulationContext.tsx:248-252 | the chart tests name (4,1) for Missing, (4,2) for TreatmentPlanned, (4,3) for a non-empty procedure, (4,4) for a non-empty note and (4,6) always |
| Transitions.ChartGrading | context/SimulationContext.tsx:248-252 | after a chart update, a cell is done exactly when it was done before or it is one of the chart cells whose condition holds |
| Transitions.BulkChartAppends | context/SimulationContext.tsx:254-257 | a bulk update appends the entries in order to the chart of every patient with the id, keeps every other patient, marks only (4,5), and changes nothing else |
| Transitions.LogActionAppends | context/SimulationContext.tsx:258-259 | logging appends one entry with the given time and changes only the log and grid |
| Transitions.LogActionChecksFire | context/SimulationContext.tsx:260-269 | the log tests name (3,0), (3,2), (3,3) and (3,6) by report name, and (3,1), (1,6), (1,5) and (4,0) by action kind |
| Transitions.LogActionGrading | context/SimulationContext.tsx:258-270 | after logging, a cell is done exactly when it was done before or the report name or kind selects it |
| Transitions.RecallTypeAppended | context/SimulationContext.tsx:271-274 | a recall type is appended, only (3,4) is marked, and nothing else changes |
| Transitions.ToastAppended | context/SimulationContext.tsx:275-278 | a toast is appended with the generated id, (3,5) is marked exactly when the lower-cased message contains "export", and nothing else changes |
| Transitions.ToastRemoved | context/SimulationContext.tsx:283-285 | removing keeps exactly the toasts with other ids, in their order, and changes nothing else |
| Transitions.StartAssessmentResets | context/SimulationContext.tsx:143-144 | starting yields the initial state with assessment mode on and attempts raised by exactly one; the collections are the seed's and no cell is done |
| Transitions.RestartAllResets | context/SimulationContext.tsx:147-148 | restarting yields the initial state with the old attempt count, assessment mode off, and no cell done |
| Transitions.EndAssessmentOnlyClearsMode | context/SimulationContext.tsx:145-146 | ending changes only assessment mode, to off |
| Transitions.UnhandledIsIdentity | context/SimulationContext.tsx:286-287 | every action kind without a branch returns the state unchanged |
| Sessions.Earns | context/SimulationContext.tsx:149-278 | the table of the cells every action earns, one case per branch, written from the branch conditions without their order (tied to `Reduce` by `Sessions.GridExact`) |
| Sessions.GridExact | context/SimulationContext.tsx:140-290 | outside the two resets, a cell is done after an action exactly when it was done before or the grading table `Earns` grants it for that action |
| Sessions.GridExactPatients | context/SimulationContext.tsx:149-196 | the same, for the patient actions |
| Sessions.GridExactAppointments | context/SimulationContext.tsx:197-224 | the same, for the appointment actions |
| Sessions.GridExactClinical | context/SimulationContext.tsx:225-257 | the same, for the ledger, claim, pre-authorisation and chart actions |
| Sessions.GridExactOffice | context/SimulationContext.tsx:258-287 | the same, for logging, recall types, toasts, ending the assessment and unhandled kinds |
| Sessions.GridGrows | context/SimulationContext.tsx:140-290 | monotonicity: outside the two resets, every done cell stays done |
| Sessions.EarnsWithinGrid | context/SimulationContext.tsx:151-277 | every cell the grading table grants lies inside the initial grid's shape |
| Sessions.VerifyStepKeepsShape | context/SimulationContext.tsx:129-138 | lifts `Grid.MarkCellKeepsShape` to whole states: `verifyStep` on a cell inside the shape keeps the state's grid in shape, whether or not the cell was already done |
| Sessions.GradeKeepsShape | context/SimulationContext.tsx:231-235 | applying tests that name only cells inside the shape keeps the grid's shape |
| Sessions.GridKeepsShape | context/SimulationContext.tsx:140-290 | every action keeps the grid in the shape of the initial grid |
| Sessions.ShapePatients | context/SimulationContext.tsx:149-196 | the same, for the patient actions |
| Sessions.ShapeAppointments | context/SimulationContext.tsx:197-224 | the same, for the appointment actions |
| Sessions.ShapeBilling | context/SimulationContext.tsx:225-245 | the same, for ledger entries, claims and pre-authorisations |
| Sessions.ShapeCharting | context/SimulationContext.tsx:246-257 | the same, for single and bulk chart updates |
| Sessions.ShapeOffice | context/SimulationContext.tsx:142-288 | the same, for logging, recall types, toasts, the assessment lifecycle and unhandled kinds |
| Sessions.PatientIdsKept | context/SimulationContext.tsx:140-290 | every action except the adds, the delete and the resets keeps the patient ids place by place, the attempt count, and the undo and redo buffers |
| Sessions.ClinicalKeepsIds | context/SimulationContext.tsx:225-257 | ledger, claim, pre-authorisation and chart actions keep every patient id and the attempt count |
| Sessions.OthersKeepPatients | context/SimulationContext.tsx:197-287 | appointment and office actions leave the patients, the attempt count and the undo and redo buffers unchanged |
| Sessions.LedgersAndChartsGrow | context/SimulationContext.tsx:140-290 | outside the patient update, the delete and the resets, the patient list only grows at its end, ids stay in place, and every ledger and chart only grows at its end |
| Sessions.ClinicalExtends | context/SimulationContext.tsx:225-257 | ledger, claim, pre-authorisation and chart actions only append to ledgers and charts and keep every patient in place |
| Sessions.UniqueIdsPreserved | context/SimulationContext.tsx:153-170 | when the seed's ids are distinct, every action keeps the patient ids distinct |
| Sessions.MaxIdStep | context/SimulationContext.tsx:153-166 | outside deletes and resets, the largest patient id rises by one with each add and stays the same otherwise |
| Sessions.DeletedTopIdCanBeReissued | context/SimulationContext.tsx:154 | after the patient with the largest id is deleted, the next add issues an id no larger than the deleted one |
| Sessions.RemoveTopOfNumbered | context/SimulationContext.tsx:281 | with ids 1..N in place, removing id N leaves N-1 as the largest id |
| Sessions.DeleteThenAddReissues | context/SimulationContext.tsx:280-282 | with ids 1..N in place, deleting N and then adding issues N again |
| Sessions.AttemptsStep | context/SimulationContext.tsx:143-148 | only starting an assessment changes the attempt count, raising it by exactly one |
| Traces.RunCountsAttempts | context/SimulationContext.tsx:143-148 | over a session, the attempt count rises by exactly the number of assessment starts |
| Traces.RunGrows | context/SimulationContext.tsx:140-290 | over a session without resets, no done cell is undone |
| Traces.RunKeepsShape | context/SimulationContext.tsx:119-122 | over any session, the grid keeps the initial shape |
| Traces.RunKeepsUniqueIds | context/SimulationContext.tsx:153-166 | over any session, patient ids stay distinct when the seed's are |
| Traces.RunMaxId | context/SimulationContext.tsx:154 | over a session without deletes and resets, the largest id ends at the starting largest id plus the number of adds |
| Traces.RunLedgersAndChartsGrow | context/SimulationContext.tsx:140-290 | over a session without patient updates, deletes and resets, patients are only appended, ids stay in place, and ledgers and charts only grow at their ends |
| Traces.SessionFromInitial | context/SimulationContext.tsx:111-124 | from the initial state, the grid keeps its shape, ids stay distinct, and the attempt count equals the number of starts |
| Scenarios.AddPatientAfterNumberedSeed | context/SimulationContext.tsx:153-159 | with seed ids 1..N, an add right after the start gives N+1 patients, the new one numbered N+1 and selected |
| Scenarios.BookingWithDrSmith | context/SimulationContext.tsx:197-202 | booking one Dr. Smith appointment marks (0,1) and (0,2) in a single transition |
| Scenarios.CopayFromInitial | context/SimulationContext.tsx:225-237 | a copay of 100 right after the start marks (2,0) and (2,1), and leaves (2,2), (2,3) and (2,6) undone |
| Scenarios.RepeatKeepsEarnedCells | context/SimulationContext.tsx:132-137 | dispatching a qualifying action a second time leaves every cell it earned done |

## Left out

- The React wiring: the context object, the provider and `useReducer`, and the hook (`context/SimulationContext.tsx:293-304`). It holds no logic.
- The contents of the seed datasets and of the literal tasks, messages and claims. The model takes them as the `Seed` parameter, and the engine never inspects them.
- The step counts of the grid. The list of training tasks (`constants`) is not part of this model. Five modules of seven steps are assumed, because every branch uses steps 0 to 6 of modules 0 to 4.
- Clock reads. The generated ledger-entry and toast ids and the log timestamp are action parameters. Dates are integer milliseconds, as `getTime()` gives them.
- Floating point. Ledger amounts are integers; the engine only asks `== 100` and `> 0`.
- The free-form `details` of a logged action. Only its `reportName` field, the one the engine reads, is kept.
- The fields of records that the engine neither reads nor writes, apart from the few carried fields named above. The record types file is not part of this model.
- Text.LowerChar: lower-cases ASCII letters only, not the full Unicode case mapping that `toLowerCase` applies.
- Grid.SetStep: JavaScript array holes and `undefined` flags are read as false, so a padded list holds false where the source holds holes.
- Reducer.Reduce: requires the pinned id to be on the calendar (`Enabled`). The source asserts the lookup non-null, and when it is null it would append `undefined` to the pinboard at runtime. That outcome is not modelled.
- The undo and redo buffers. No branch fills or reads them. The model keeps the field: the two resets empty it, and every other action leaves it unchanged (`Reducer.Reduce`).
- JavaScript engine limits, such as the argument-count limit of `Math.max(...ids)` on very large patient lists.
