/** The transition engine: one action at a time, a new session state.
    Grading rides along: selected branches mark cells of the progress grid
    through `VerifyStep` as part of the same transition. */
module Reducer {
  import opened Domain
  import opened Grid
  import opened Records
  import opened Text

  /** The action kinds the engine accepts but has no branch for. */
  datatype UnhandledKind =
    | DeleteAppointmentKind | CancelAppointmentKind
    | AddDocumentKind | AddUnassignedDocumentKind | UpdateUnassignedDocumentKind
    | DeleteUnassignedDocumentKind | AssignDocumentToPatientKind
    | UndoKind | RedoKind
    | WaitlistAppointmentKind | UpdateDayNoteKind
    | AddVerificationKind | UpdateVerificationKind | BulkUpdateVerificationsKind
    | AddMedicalRecordKind | UpdateMedicalRecordKind
    | MovePlannedTreatmentKind
    | AddTaskKind | UpdateTaskKind | ToggleTaskCompleteKind | MarkTaskRemindedKind
    | MarkMessageReadKind | SendPortalReplyKind
    | UpdateClaimKind | UpdateRecallTypeKind

  /** The closed action vocabulary. Values the engine reads from the clock
      (`entryId`, `toastId`, `loggedAt`) are carried by the action. */
  datatype Action =
    | SelectPatient(selection: Option<int>)
    | AddPatient(newPatient: Patient)
    | UpdatePatient(updated: Patient)
    | DeletePatient(deleteId: int)
    | ScheduleAppointments(booked: seq<Appointment>)
    | UpdateAppointment(updatedApt: Appointment)
    | MoveAppointment(moveId: string, newStartTime: int, newOperatory: int, source: Placement)
    | PinAppointment(pinId: string)
    | AddLedgerEntry(patientId: int, entry: LedgerInput, entryId: string)
    | UpdateChart(patientId: int, toothState: ToothState)
    | BulkUpdateChart(patientId: int, updates: seq<ToothState>)
    | LogAction(logKind: string, logReportName: Option<string>, loggedAt: int)
    | AddFamilyMember(patientData: Patient, familyLinkToId: int)
    | AddToast(toastMessage: string, toastId: string)
    | RemoveToastAction(removeToastId: string)
    | AddPreAuth(preAuth: PreAuthorization)
    | AddClaim(claim: InsuranceClaim)
    | AddRecallType(recallType: RecallType)
    | StartAssessment
    | EndAssessment
    | RestartAll
    | Unhandled(kind: UnhandledKind)

  /** The state a session starts from: the seed datasets plus the literal
      initial values of every other field. */
  function Initial(seed: Seed): (r: State)
    ensures Shaped(r.completedSandboxTasks, StepCounts)
    ensures forall m, i :: !Cell(r.completedSandboxTasks, m, i)
    ensures r.patients == seed.seedPatients && r.selectedPatientId == Some(1)
    ensures !r.assessmentMode && r.assessmentAttempts == 0
  {
    State(
      patients := seed.seedPatients,
      appointments := seed.seedAppointments,
      verifications := seed.seedVerifications,
      medicalRecords := seed.seedMedicalRecords,
      tasks := seed.seedTasks,
      portalMessages := seed.seedPortalMessages,
      preAuthorizations := seed.seedPreAuthorizations,
      recallTypes := seed.seedRecallTypes,
      claims := seed.seedClaims,
      selectedPatientId := Some(1),
      actions := [],
      history := History([], []),
      pinboardAppointments := [],
      waitlistAppointments := [],
      unassignedDocuments := [],
      dayNotes := map[],
      toasts := [],
      completedSandboxTasks := InitialGrid(StepCounts),
      assessmentMode := false,
      assessmentAttempts := 0)
  }

  /** The engine's grading helper: marks cell `(m, i)` done. Only the grid
      changes, in that one cell, and a cell already done leaves the state
      as it is. */
  function VerifyStep(m: int, i: nat, s: State): (r: State)
    ensures r == s.(completedSandboxTasks := r.completedSandboxTasks)
    ensures forall m', i' :: Cell(r.completedSandboxTasks, m', i') <==>
                             Cell(s.completedSandboxTasks, m', i') || (m' == m && i' == i)
    ensures Cell(s.completedSandboxTasks, m, i) ==> r == s
  {
    if !Cell(s.completedSandboxTasks, m, i) then
      s.(completedSandboxTasks := MarkCell(s.completedSandboxTasks, m, i))
    else
      s
  }

  /** One grading test of a branch: when `passed`, cell `(task, step)` is marked. */
  datatype Check = Check(passed: bool, task: int, step: nat)

  /** Some passed check of `checks` names cell `(m, i)`. */
  predicate Fires(checks: seq<Check>, m: int, i: int) {
    exists k :: 0 <= k < |checks| && checks[k].passed && checks[k].task == m && checks[k].step == i
  }

  /** The checks of a branch in order, each `if (...) verifyStep(...)` in turn.
      Only the grid changes: a cell is done afterwards exactly when it was
      done before or a passed check names it. */
  function Grade(s: State, checks: seq<Check>): (r: State)
    ensures r == s.(completedSandboxTasks := r.completedSandboxTasks)
    ensures forall m, i :: Cell(r.completedSandboxTasks, m, i) <==>
                           Cell(s.completedSandboxTasks, m, i) || Fires(checks, m, i)
    decreases |checks|
  {
    if checks == [] then s
    else
      var c := checks[0];
      var s1 := if c.passed then VerifyStep(c.task, c.step, s) else s;
      var r := Grade(s1, checks[1..]);
      assert forall m, i :: Fires(checks, m, i) <==>
                            (c.passed && c.task == m && c.step == i) || Fires(checks[1..], m, i) by {
        forall m, i ensures Fires(checks, m, i) ==>
                            (c.passed && c.task == m && c.step == i) || Fires(checks[1..], m, i) {
          if Fires(checks, m, i) {
            var k :| 0 <= k < |checks| && checks[k].passed && checks[k].task == m && checks[k].step == i;
            if k > 0 { assert checks[1..][k - 1] == checks[k]; }
          }
        }
        forall m, i ensures Fires(checks[1..], m, i) ==> Fires(checks, m, i) {
          if Fires(checks[1..], m, i) {
            var k :| 0 <= k < |checks[1..]| && checks[1..][k].passed &&
                     checks[1..][k].task == m && checks[1..][k].step == i;
            assert checks[k + 1] == checks[1..][k];
          }
        }
      }
      r
  }

  // Grading predicates of the patient update, comparing the new record with
  // the first stored one of the same id (`None` when there is none, where
  // every field of the old record reads as undefined).

  function AlertCount(alerts: Option<seq<string>>): nat {
    if alerts.Some? then |alerts.value| else 0
  }

  predicate AddressChanged(q: Patient, stored: Option<Patient>) {
    stored.None? || q.address != stored.value.address
  }

  predicate AlertAdded(q: Patient, stored: Option<Patient>) {
    AlertCount(q.medicalAlerts) > (if stored.Some? then AlertCount(stored.value.medicalAlerts) else 0)
  }

  predicate Deactivated(q: Patient, stored: Option<Patient>) {
    q.status == Inactive && stored.Some? && stored.value.status == Active
  }

  predicate AutomationChanged(q: Patient, stored: Option<Patient>) {
    || stored.None?
    || q.automationActive != stored.value.automationActive
    || q.sendConfirmation14Days != stored.value.sendConfirmation14Days
    || q.sendReminder2Days != stored.value.sendReminder2Days
    || q.sendFollowUpOnCancel != stored.value.sendFollowUpOnCancel
  }

  predicate PhotoChanged(q: Patient, stored: Option<Patient>) {
    Truthy(q.photoUrl) && (stored.None? || q.photoUrl != stored.value.photoUrl)
  }

  /** The stored appointment was given a new time or operatory. */
  predicate Rescheduled(q: Appointment, prev: Option<Appointment>) {
    prev.Some? && (prev.value.startTime != q.startTime || prev.value.operatory != q.operatory)
  }

  predicate SomeProvider(xs: seq<Appointment>, provider: string) {
    exists k :: 0 <= k < |xs| && xs[k].provider == provider
  }

  predicate SomeBlock(xs: seq<Appointment>) {
    exists k :: 0 <= k < |xs| && xs[k].isBlock
  }

  /** What the engine demands of its caller: a pinned appointment exists on
      the calendar (the engine asserts the lookup non-null). */
  predicate Enabled(s: State, a: Action) {
    a.PinAppointment? ==> HasAppointment(s.appointments, a.pinId)
  }

  // One function per branch of the engine, in the engine's order.

  function OnStartAssessment(seed: Seed, s: State): State {
    Initial(seed).(assessmentMode := true, assessmentAttempts := s.assessmentAttempts + 1)
  }

  function OnRestartAll(seed: Seed, s: State): State {
    Initial(seed).(assessmentAttempts := s.assessmentAttempts)
  }

  function OnSelectPatient(s: State, sel: Option<int>): State {
    Grade(s.(selectedPatientId := sel), [ Check(sel.Some?, 0, 0) ])
  }

  /** Shared by patient and family-member adds, which differ in the cell marked. */
  function OnAddPatient(s: State, p: Patient, step: nat): State {
    var id := NextPatientId(s.patients);
    VerifyStep(1, step, s.(patients := s.patients + [p.(id := id)], selectedPatientId := Some(id)))
  }

  /** The grading tests of a patient update, in the engine's order. */
  function UpdatePatientChecks(q: Patient, stored: Option<Patient>): seq<Check> {
    [ Check(AddressChanged(q, stored), 1, 2),
      Check(AlertAdded(q, stored), 1, 3),
      Check(Deactivated(q, stored), 1, 4),
      Check(AutomationChanged(q, stored), 1, 5),
      Check(PhotoChanged(q, stored), 1, 6) ]
  }

  function OnUpdatePatient(s: State, q: Patient): State {
    var stored := FindPatient(s.patients, q.id);
    Grade(s.(patients := ReplacePatient(s.patients, q)),
          UpdatePatientChecks(q, stored))
  }

  /** The grading tests of a schedule. */
  function ScheduleChecks(xs: seq<Appointment>): seq<Check> {
    [ Check(true, 0, 1),
      Check(SomeProvider(xs, "Dr. Smith"), 0, 2),
      Check(SomeBlock(xs), 0, 4) ]
  }

  function OnScheduleAppointments(s: State, xs: seq<Appointment>): State {
    Grade(s.(appointments := s.appointments + xs),
          ScheduleChecks(xs))
  }

  /** The grading tests of an appointment update. */
  function UpdateAppointmentChecks(q: Appointment, prev: Option<Appointment>): seq<Check> {
    [ Check(q.aptStatus == "FIRM", 0, 3),
      Check(Rescheduled(q, prev), 0, 5) ]
  }

  function OnUpdateAppointment(s: State, q: Appointment): State {
    var prev := FindAppointment(s.appointments, q.aptId);
    Grade(s.(appointments := ReplaceAppointment(s.appointments, q)),
          UpdateAppointmentChecks(q, prev))
  }

  function OnMoveAppointment(s: State, id: string, start: int, op: int): State {
    VerifyStep(0, 5, s.(appointments := RescheduleAppointment(s.appointments, id, start, op)))
  }

  function OnPinAppointment(s: State, id: string): State
    requires HasAppointment(s.appointments, id)
  {
    var found := FindAppointment(s.appointments, id);
    VerifyStep(0, 6, s.(appointments := RemoveAppointment(s.appointments, id),
                        pinboardAppointments := s.pinboardAppointments + [found.value]))
  }

  /** The grading tests of a ledger entry. */
  function LedgerChecks(e: LedgerInput): seq<Check> {
    [ Check(true, 2, 0),
      Check(e.payment == 100, 2, 1),
      Check(e.charge > 0, 2, 2),
      Check(e.writeOff > 0, 2, 3),
      Check(Contains(ToLower(e.description), "refund"), 2, 6) ]
  }

  function OnAddLedgerEntry(s: State, pid: int, e: LedgerInput, eid: string): State {
    var line := LedgerEntry(eid, e.charge, e.payment, e.writeOff, e.description, 0);
    Grade(s.(patients := AppendLedger(s.patients, pid, line)),
          LedgerChecks(e))
  }

  /** The grading tests of a chart update. */
  function ChartChecks(t: ToothState): seq<Check> {
    [ Check(t.status == Missing, 4, 1),
      Check(t.status == TreatmentPlanned, 4, 2),
      Check(Truthy(t.procedure), 4, 3),
      Check(Truthy(t.notes), 4, 4),
      Check(true, 4, 6) ]
  }

  function OnUpdateChart(s: State, pid: int, t: ToothState): State {
    Grade(s.(patients := AppendChart(s.patients, pid, [t])),
          ChartChecks(t))
  }

  /** The grading tests of a logged action. */
  function LogActionChecks(kind: string, report: Option<string>): seq<Check> {
    [ Check(report == Some("Day Sheet"), 3, 0),
      Check(kind == "run_report", 3, 1),
      Check(report == Some("Deposit Slip"), 3, 2),
      Check(report == Some("Recall Management"), 3, 3),
      Check(report == Some("End-of-Day"), 3, 6),
      Check(kind == "upload_photo", 1, 6),
      Check(kind == "manual_reminder_send", 1, 5),
      Check(kind == "tooth_search", 4, 0) ]
  }

  function OnLogAction(s: State, kind: string, report: Option<string>, at: int): State {
    Grade(s.(actions := s.actions + [LoggedAction(kind, report, at)]),
          LogActionChecks(kind, report))
  }

  function OnAddToast(s: State, msg: string, tid: string): State {
    Grade(s.(toasts := s.toasts + [ToastMessage(tid, msg)]),
          [ Check(Contains(ToLower(msg), "export"), 3, 5) ])
  }

  /** The transition function. Only the two resets touch the undo and redo
      buffers, which they empty, and only the assessment lifecycle actions
      switch assessment mode. */
  function Reduce(seed: Seed, s: State, a: Action): (r: State)
    requires Enabled(s, a)
    ensures r.history == (if a.StartAssessment? || a.RestartAll? then History([], []) else s.history)
    ensures r.assessmentMode == (if a.StartAssessment? then true
                                 else if a.EndAssessment? || a.RestartAll? then false
                                 else s.assessmentMode)
  {
    match a
    case StartAssessment => OnStartAssessment(seed, s)
    case EndAssessment => s.(assessmentMode := false)
    case RestartAll => OnRestartAll(seed, s)
    case SelectPatient(sel) => OnSelectPatient(s, sel)
    case AddPatient(p) => OnAddPatient(s, p, 0)
    case AddFamilyMember(p, _) => OnAddPatient(s, p, 1)
    case UpdatePatient(q) => OnUpdatePatient(s, q)
    case ScheduleAppointments(xs) => OnScheduleAppointments(s, xs)
    case UpdateAppointment(q) => OnUpdateAppointment(s, q)
    case MoveAppointment(id, start, op, _) => OnMoveAppointment(s, id, start, op)
    case PinAppointment(id) => OnPinAppointment(s, id)
    case AddLedgerEntry(pid, e, eid) => OnAddLedgerEntry(s, pid, e, eid)
    case AddClaim(c) => VerifyStep(2, 4, s.(claims := s.claims + [c]))
    case AddPreAuth(pa) => VerifyStep(2, 5, s.(preAuthorizations := s.preAuthorizations + [pa]))
    case UpdateChart(pid, t) => OnUpdateChart(s, pid, t)
    case BulkUpdateChart(pid, ts) => VerifyStep(4, 5, s.(patients := AppendChart(s.patients, pid, ts)))
    case LogAction(kind, report, at) => OnLogAction(s, kind, report, at)
    case AddRecallType(rt) => VerifyStep(3, 4, s.(recallTypes := s.recallTypes + [rt]))
    case AddToast(msg, tid) => OnAddToast(s, msg, tid)
    case DeletePatient(id) => s.(patients := RemovePatient(s.patients, id), selectedPatientId := None)
    case RemoveToastAction(id) => s.(toasts := RemoveToast(s.toasts, id))
    case Unhandled(_) => s
  }
}
