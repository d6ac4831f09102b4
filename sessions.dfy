/** Properties of the transition engine across actions and across whole
    sessions: which grid cells an action earns, that the grid only grows
    outside the two resets and keeps its shape, that patient ids stay
    unique and grow by one per add, and how attempts are counted. */
module Sessions {
  import opened Domain
  import opened Grid
  import opened Records
  import opened Text
  import opened Reducer
  import opened Transitions

  /** The two actions that discard the session for the initial state. */
  predicate Resets(a: Action) {
    a.StartAssessment? || a.RestartAll?
  }

  /** Which cells each action marks, as one table: action `a` on state `s` earns cell
      `(m, i)`. Written from the branch conditions, independently of the
      order in which the engine applies them. */
  predicate Earns(s: State, a: Action, m: int, i: int) {
    match a
    case SelectPatient(sel) => sel.Some? && m == 0 && i == 0
    case AddPatient(_) => m == 1 && i == 0
    case AddFamilyMember(_, _) => m == 1 && i == 1
    case UpdatePatient(q) =>
      var stored := FindPatient(s.patients, q.id);
      m == 1 && ((i == 2 && AddressChanged(q, stored)) || (i == 3 && AlertAdded(q, stored)) ||
                 (i == 4 && Deactivated(q, stored)) || (i == 5 && AutomationChanged(q, stored)) ||
                 (i == 6 && PhotoChanged(q, stored)))
    case ScheduleAppointments(xs) =>
      m == 0 && (i == 1 || (i == 2 && SomeProvider(xs, "Dr. Smith")) || (i == 4 && SomeBlock(xs)))
    case UpdateAppointment(q) =>
      m == 0 && ((i == 3 && q.aptStatus == "FIRM") ||
                 (i == 5 && Rescheduled(q, FindAppointment(s.appointments, q.aptId))))
    case MoveAppointment(_, _, _, _) => m == 0 && i == 5
    case PinAppointment(_) => m == 0 && i == 6
    case AddLedgerEntry(_, e, _) =>
      m == 2 && (i == 0 || (i == 1 && e.payment == 100) || (i == 2 && e.charge > 0) ||
                 (i == 3 && e.writeOff > 0) || (i == 6 && Contains(ToLower(e.description), "refund")))
    case AddClaim(_) => m == 2 && i == 4
    case AddPreAuth(_) => m == 2 && i == 5
    case UpdateChart(_, t) =>
      m == 4 && ((i == 1 && t.status == Missing) || (i == 2 && t.status == TreatmentPlanned) ||
                 (i == 3 && Truthy(t.procedure)) || (i == 4 && Truthy(t.notes)) || i == 6)
    case BulkUpdateChart(_, _) => m == 4 && i == 5
    case LogAction(kind, report, _) =>
      || (m == 3 && i == 0 && report == Some("Day Sheet"))
      || (m == 3 && i == 1 && kind == "run_report")
      || (m == 3 && i == 2 && report == Some("Deposit Slip"))
      || (m == 3 && i == 3 && report == Some("Recall Management"))
      || (m == 3 && i == 6 && report == Some("End-of-Day"))
      || (m == 1 && i == 6 && kind == "upload_photo")
      || (m == 1 && i == 5 && kind == "manual_reminder_send")
      || (m == 4 && i == 0 && kind == "tooth_search")
    case AddRecallType(_) => m == 3 && i == 4
    case AddToast(msg, _) => m == 3 && i == 5 && Contains(ToLower(msg), "export")
    case _ => false
  }

  // -------------------------------------------------------------- the grid

  /** This model's grouping of the actions, used to split the proofs. */
  predicate PatientAction(a: Action) {
    a.SelectPatient? || a.AddPatient? || a.AddFamilyMember? || a.UpdatePatient? || a.DeletePatient?
  }

  predicate AppointmentAction(a: Action) {
    a.ScheduleAppointments? || a.UpdateAppointment? || a.MoveAppointment? || a.PinAppointment?
  }

  predicate ClinicalAction(a: Action) {
    a.AddLedgerEntry? || a.AddClaim? || a.AddPreAuth? || a.UpdateChart? || a.BulkUpdateChart?
  }

  /** Outside the resets, a cell is done after an action exactly when it was
      done before or the action earns it. */
  lemma GridExact(seed: Seed, s: State, a: Action)
    requires Enabled(s, a) && !Resets(a)
    ensures forall m, i :: Cell(Reduce(seed, s, a).completedSandboxTasks, m, i) <==>
                           Cell(s.completedSandboxTasks, m, i) || Earns(s, a, m, i)
  {
    if PatientAction(a) {
      GridExactPatients(seed, s, a);
    } else if AppointmentAction(a) {
      GridExactAppointments(seed, s, a);
    } else if ClinicalAction(a) {
      GridExactClinical(seed, s, a);
    } else {
      GridExactOffice(seed, s, a);
    }
  }

  lemma GridExactPatients(seed: Seed, s: State, a: Action)
    requires PatientAction(a)
    ensures forall m, i :: Cell(Reduce(seed, s, a).completedSandboxTasks, m, i) <==>
                           Cell(s.completedSandboxTasks, m, i) || Earns(s, a, m, i)
  {
    match a
    case SelectPatient(sel) => SelectPatientSelects(seed, s, sel);
    case AddPatient(p) => AddPatientAppendsFreshId(seed, s, p);
    case AddFamilyMember(p, l) => AddFamilyMemberAppendsFreshId(seed, s, p, l);
    case UpdatePatient(q) => UpdatePatientGrading(seed, s, q);
    case DeletePatient(id) => DeletePatientRemoves(seed, s, id);
  }

  lemma GridExactAppointments(seed: Seed, s: State, a: Action)
    requires AppointmentAction(a) && Enabled(s, a)
    ensures forall m, i :: Cell(Reduce(seed, s, a).completedSandboxTasks, m, i) <==>
                           Cell(s.completedSandboxTasks, m, i) || Earns(s, a, m, i)
  {
    match a
    case ScheduleAppointments(xs) => ScheduleGrading(seed, s, xs);
    case UpdateAppointment(q) => UpdateAppointmentGrading(seed, s, q);
    case MoveAppointment(id, start, op, src) => MoveAppointmentReschedules(seed, s, id, start, op, src);
    case PinAppointment(id) => PinMovesToPinboard(seed, s, id);
  }

  lemma GridExactClinical(seed: Seed, s: State, a: Action)
    requires ClinicalAction(a)
    ensures forall m, i :: Cell(Reduce(seed, s, a).completedSandboxTasks, m, i) <==>
                           Cell(s.completedSandboxTasks, m, i) || Earns(s, a, m, i)
  {
    match a
    case AddLedgerEntry(pid, e, eid) => LedgerGrading(seed, s, pid, e, eid);
    case AddClaim(c) => ClaimAppended(seed, s, c);
    case AddPreAuth(pa) => PreAuthAppended(seed, s, pa);
    case UpdateChart(pid, t) => ChartGrading(seed, s, pid, t);
    case BulkUpdateChart(pid, ts) => BulkChartAppends(seed, s, pid, ts);
  }

  lemma GridExactOffice(seed: Seed, s: State, a: Action)
    requires !PatientAction(a) && !AppointmentAction(a) && !ClinicalAction(a) && !Resets(a)
    ensures forall m, i :: Cell(Reduce(seed, s, a).completedSandboxTasks, m, i) <==>
                           Cell(s.completedSandboxTasks, m, i) || Earns(s, a, m, i)
  {
    match a
    case LogAction(kind, report, at) => LogActionGrading(seed, s, kind, report, at);
    case AddRecallType(rt) => RecallTypeAppended(seed, s, rt);
    case AddToast(msg, tid) => ToastAppended(seed, s, msg, tid);
    case RemoveToastAction(id) => ToastRemoved(seed, s, id);
    case EndAssessment => EndAssessmentOnlyClearsMode(seed, s);
    case Unhandled(k) => UnhandledIsIdentity(seed, s, k);
  }

  /** Monotonicity: outside the resets no done cell is ever undone. */
  lemma GridGrows(seed: Seed, s: State, a: Action)
    requires Enabled(s, a) && !Resets(a)
    ensures Grows(s.completedSandboxTasks, Reduce(seed, s, a).completedSandboxTasks)
  {
    GridExact(seed, s, a);
  }

  /** Every cell an action earns lies inside the grid of the initial state. */
  lemma EarnsWithinGrid(s: State, a: Action, m: int, i: int)
    requires Earns(s, a, m, i)
    ensures InShape(StepCounts, m, i)
  {
  }

  /** Checks whose passed cells all lie inside the grid. */
  predicate WithinGrid(checks: seq<Check>) {
    forall k :: 0 <= k < |checks| && checks[k].passed ==> InShape(StepCounts, checks[k].task, checks[k].step)
  }

  /** Marking a cell inside the shape keeps the shape. */
  lemma VerifyStepKeepsShape(m: int, i: nat, s: State)
    requires Shaped(s.completedSandboxTasks, StepCounts) && InShape(StepCounts, m, i)
    ensures Shaped(VerifyStep(m, i, s).completedSandboxTasks, StepCounts)
  {
    if !Cell(s.completedSandboxTasks, m, i) {
      MarkCellKeepsShape(s.completedSandboxTasks, StepCounts, m, i);
    }
  }

  /** Grading with checks inside the shape keeps the shape. */
  lemma {:induction false} GradeKeepsShape(s: State, checks: seq<Check>)
    requires Shaped(s.completedSandboxTasks, StepCounts) && WithinGrid(checks)
    ensures Shaped(Grade(s, checks).completedSandboxTasks, StepCounts)
    decreases |checks|
  {
    if checks != [] {
      var c := checks[0];
      var s1 := if c.passed then VerifyStep(c.task, c.step, s) else s;
      if c.passed { VerifyStepKeepsShape(c.task, c.step, s); }
      assert WithinGrid(checks[1..]) by {
        forall k | 0 <= k < |checks[1..]| && checks[1..][k].passed
          ensures InShape(StepCounts, checks[1..][k].task, checks[1..][k].step)
        {
          assert checks[1..][k] == checks[k + 1];
        }
      }
      GradeKeepsShape(s1, checks[1..]);
    }
  }

  /** Every action keeps the grid in the shape of the initial state. */
  lemma GridKeepsShape(seed: Seed, s: State, a: Action)
    requires Enabled(s, a) && Shaped(s.completedSandboxTasks, StepCounts)
    ensures Shaped(Reduce(seed, s, a).completedSandboxTasks, StepCounts)
  {
    if PatientAction(a) {
      ShapePatients(seed, s, a);
    } else if AppointmentAction(a) {
      ShapeAppointments(seed, s, a);
    } else if a.AddLedgerEntry? || a.AddClaim? || a.AddPreAuth? {
      ShapeBilling(seed, s, a);
    } else if a.UpdateChart? || a.BulkUpdateChart? {
      ShapeCharting(seed, s, a);
    } else {
      ShapeOffice(seed, s, a);
    }
  }

  lemma ShapePatients(seed: Seed, s: State, a: Action)
    requires PatientAction(a) && Shaped(s.completedSandboxTasks, StepCounts)
    ensures Shaped(Reduce(seed, s, a).completedSandboxTasks, StepCounts)
  {
    match a
    case SelectPatient(sel) =>
      GradeKeepsShape(s.(selectedPatientId := sel), [ Check(sel.Some?, 0, 0) ]);
    case AddPatient(p) =>
      var id := NextPatientId(s.patients);
      VerifyStepKeepsShape(1, 0, s.(patients := s.patients + [p.(id := id)], selectedPatientId := Some(id)));
    case AddFamilyMember(p, _) =>
      var id := NextPatientId(s.patients);
      VerifyStepKeepsShape(1, 1, s.(patients := s.patients + [p.(id := id)], selectedPatientId := Some(id)));
    case UpdatePatient(q) =>
      var cs := UpdatePatientChecks(q, FindPatient(s.patients, q.id));
      assert WithinGrid(cs);
      GradeKeepsShape(s.(patients := ReplacePatient(s.patients, q)), cs);
    case DeletePatient(_) =>
  }

  lemma ShapeAppointments(seed: Seed, s: State, a: Action)
    requires AppointmentAction(a) && Enabled(s, a) && Shaped(s.completedSandboxTasks, StepCounts)
    ensures Shaped(Reduce(seed, s, a).completedSandboxTasks, StepCounts)
  {
    match a
    case ScheduleAppointments(xs) =>
      assert WithinGrid(ScheduleChecks(xs));
      GradeKeepsShape(s.(appointments := s.appointments + xs), ScheduleChecks(xs));
    case UpdateAppointment(q) =>
      var cs := UpdateAppointmentChecks(q, FindAppointment(s.appointments, q.aptId));
      assert WithinGrid(cs);
      GradeKeepsShape(s.(appointments := ReplaceAppointment(s.appointments, q)), cs);
    case MoveAppointment(id, start, op, _) =>
      VerifyStepKeepsShape(0, 5, s.(appointments := RescheduleAppointment(s.appointments, id, start, op)));
    case PinAppointment(id) =>
      var found := FindAppointment(s.appointments, id);
      VerifyStepKeepsShape(0, 6, s.(appointments := RemoveAppointment(s.appointments, id),
                                    pinboardAppointments := s.pinboardAppointments + [found.value]));
  }

  lemma ShapeBilling(seed: Seed, s: State, a: Action)
    requires (a.AddLedgerEntry? || a.AddClaim? || a.AddPreAuth?) && Shaped(s.completedSandboxTasks, StepCounts)
    ensures Shaped(Reduce(seed, s, a).completedSandboxTasks, StepCounts)
  {
    match a
    case AddLedgerEntry(pid, e, eid) =>
      var line := LedgerEntry(eid, e.charge, e.payment, e.writeOff, e.description, 0);
      assert WithinGrid(LedgerChecks(e));
      GradeKeepsShape(s.(patients := AppendLedger(s.patients, pid, line)), LedgerChecks(e));
    case AddClaim(c) => VerifyStepKeepsShape(2, 4, s.(claims := s.claims + [c]));
    case AddPreAuth(pa) => VerifyStepKeepsShape(2, 5, s.(preAuthorizations := s.preAuthorizations + [pa]));
  }

  lemma ShapeCharting(seed: Seed, s: State, a: Action)
    requires (a.UpdateChart? || a.BulkUpdateChart?) && Shaped(s.completedSandboxTasks, StepCounts)
    ensures Shaped(Reduce(seed, s, a).completedSandboxTasks, StepCounts)
  {
    match a
    case UpdateChart(pid, t) =>
      assert WithinGrid(ChartChecks(t));
      GradeKeepsShape(s.(patients := AppendChart(s.patients, pid, [t])), ChartChecks(t));
    case BulkUpdateChart(pid, ts) =>
      VerifyStepKeepsShape(4, 5, s.(patients := AppendChart(s.patients, pid, ts)));
  }

  lemma ShapeOffice(seed: Seed, s: State, a: Action)
    requires !PatientAction(a) && !AppointmentAction(a) && !ClinicalAction(a)
    requires Shaped(s.completedSandboxTasks, StepCounts)
    ensures Shaped(Reduce(seed, s, a).completedSandboxTasks, StepCounts)
  {
    match a
    case LogAction(kind, report, at) =>
      assert WithinGrid(LogActionChecks(kind, report));
      GradeKeepsShape(s.(actions := s.actions + [LoggedAction(kind, report, at)]), LogActionChecks(kind, report));
    case AddRecallType(rt) => VerifyStepKeepsShape(3, 4, s.(recallTypes := s.recallTypes + [rt]));
    case AddToast(msg, tid) =>
      GradeKeepsShape(s.(toasts := s.toasts + [ToastMessage(tid, msg)]),
                      [ Check(Contains(ToLower(msg), "export"), 3, 5) ]);
    case StartAssessment =>
    case RestartAll =>
    case RemoveToastAction(_) =>
    case EndAssessment =>
    case Unhandled(_) =>
  }

  // ------------------------------------------------------------ patient ids

  /** The two actions that add a patient. */
  predicate AddsPatient(a: Action) {
    a.AddPatient? || a.AddFamilyMember?
  }

  /** Every action other than the adds, the delete and the resets keeps the
      patient ids, place by place, as well as the attempt count and the
      (never filled) undo and redo buffers. */
  lemma PatientIdsKept(seed: Seed, s: State, a: Action)
    requires Enabled(s, a) && !AddsPatient(a) && !a.DeletePatient? && !Resets(a)
    ensures var r := Reduce(seed, s, a);
      SameIds(s.patients, r.patients) && r.assessmentAttempts == s.assessmentAttempts && r.history == s.history
  {
    if a.UpdatePatient? {
      UpdatePatientReplaces(seed, s, a.updated);
    } else if a.SelectPatient? {
      SelectPatientSelects(seed, s, a.selection);
    } else if ClinicalAction(a) {
      ClinicalKeepsIds(seed, s, a);
    } else {
      OthersKeepPatients(seed, s, a);
    }
  }

  /** Billing and charting rewrite ledgers and charts but keep every id. */
  lemma ClinicalKeepsIds(seed: Seed, s: State, a: Action)
    requires ClinicalAction(a)
    ensures var r := Reduce(seed, s, a);
      SameIds(s.patients, r.patients) && r.assessmentAttempts == s.assessmentAttempts && r.history == s.history
  {
    match a
    case AddLedgerEntry(pid, e, eid) => LedgerAppendsOneEntry(seed, s, pid, e, eid);
    case AddClaim(c) => ClaimAppended(seed, s, c);
    case AddPreAuth(pa) => PreAuthAppended(seed, s, pa);
    case UpdateChart(pid, t) => ChartAppendsOne(seed, s, pid, t);
    case BulkUpdateChart(pid, ts) => BulkChartAppends(seed, s, pid, ts);
  }

  /** The appointment and office actions leave the patients alone. */
  lemma OthersKeepPatients(seed: Seed, s: State, a: Action)
    requires Enabled(s, a) && !PatientAction(a) && !ClinicalAction(a) && !Resets(a)
    ensures var r := Reduce(seed, s, a);
      r.patients == s.patients && r.assessmentAttempts == s.assessmentAttempts && r.history == s.history
  {
    match a
    case ScheduleAppointments(xs) => ScheduleAppendsInOrder(seed, s, xs);
    case UpdateAppointment(q) => UpdateAppointmentReplaces(seed, s, q);
    case MoveAppointment(id, start, op, src) => MoveAppointmentReschedules(seed, s, id, start, op, src);
    case PinAppointment(id) => PinMovesToPinboard(seed, s, id);
    case LogAction(kind, report, at) => LogActionAppends(seed, s, kind, report, at);
    case AddRecallType(rt) => RecallTypeAppended(seed, s, rt);
    case AddToast(msg, tid) => ToastAppended(seed, s, msg, tid);
    case RemoveToastAction(id) => ToastRemoved(seed, s, id);
    case EndAssessment => EndAssessmentOnlyClearsMode(seed, s);
    case Unhandled(k) => UnhandledIsIdentity(seed, s, k);
  }

  /** Append-only records: outside the patient update, the delete and the
      resets, the patient list only grows at its end, every id stays in its
      place, and every ledger and chart only grows at its end. */
  lemma LedgersAndChartsGrow(seed: Seed, s: State, a: Action)
    requires Enabled(s, a) && !a.UpdatePatient? && !a.DeletePatient? && !Resets(a)
    ensures Extends(s.patients, Reduce(seed, s, a).patients)
  {
    var r := Reduce(seed, s, a);
    if AddsPatient(a) {
      if a.AddPatient? { AddPatientAppendsFreshId(seed, s, a.newPatient); }
      else { AddFamilyMemberAppendsFreshId(seed, s, a.patientData, a.familyLinkToId); }
      assert forall k :: 0 <= k < |s.patients| ==> r.patients[k] == s.patients[k];
    } else if ClinicalAction(a) {
      ClinicalExtends(seed, s, a);
    } else if a.SelectPatient? {
      SelectPatientSelects(seed, s, a.selection);
    } else {
      OthersKeepPatients(seed, s, a);
    }
  }

  /** Billing and charting only append to ledgers and charts. */
  lemma ClinicalExtends(seed: Seed, s: State, a: Action)
    requires ClinicalAction(a)
    ensures Extends(s.patients, Reduce(seed, s, a).patients)
  {
    match a
    case AddLedgerEntry(pid, e, eid) => LedgerAppendsOneEntry(seed, s, pid, e, eid);
    case AddClaim(c) => ClaimAppended(seed, s, c);
    case AddPreAuth(pa) => PreAuthAppended(seed, s, pa);
    case UpdateChart(pid, t) => ChartAppendsOne(seed, s, pid, t);
    case BulkUpdateChart(pid, ts) => BulkChartAppends(seed, s, pid, ts);
  }

  /** No action makes two patients share an id: the adds issue a fresh one,
      the delete only drops records, and the resets restore seed patients
      with distinct ids. */
  lemma UniqueIdsPreserved(seed: Seed, s: State, a: Action)
    requires Enabled(s, a) && UniqueIds(s.patients) && UniqueIds(seed.seedPatients)
    ensures UniqueIds(Reduce(seed, s, a).patients)
  {
    var r := Reduce(seed, s, a);
    if Resets(a) {
      if a.StartAssessment? { StartAssessmentResets(seed, s); } else { RestartAllResets(seed, s); }
    } else if AddsPatient(a) {
      var p := if a.AddPatient? then a.newPatient else a.patientData;
      if a.AddPatient? { AddPatientAppendsFreshId(seed, s, p); }
      else { AddFamilyMemberAppendsFreshId(seed, s, p, a.familyLinkToId); }
      AppendNextId(s.patients, p.(id := NextPatientId(s.patients)));
    } else if a.DeletePatient? {
      DeletePatientRemoves(seed, s, a.deleteId);
      RemovePatientKeepsUnique(s.patients, a.deleteId);
    } else {
      PatientIdsKept(seed, s, a);
      SameIdsAgree(s.patients, r.patients);
    }
  }

  /** Outside deletes and resets, the largest patient id grows by one with
      every add and stays put otherwise. */
  lemma MaxIdStep(seed: Seed, s: State, a: Action)
    requires Enabled(s, a) && !a.DeletePatient? && !Resets(a)
    ensures MaxId(Reduce(seed, s, a).patients) == MaxId(s.patients) + (if AddsPatient(a) then 1 else 0)
  {
    var r := Reduce(seed, s, a);
    if AddsPatient(a) {
      var p := if a.AddPatient? then a.newPatient else a.patientData;
      if a.AddPatient? { AddPatientAppendsFreshId(seed, s, p); }
      else { AddFamilyMemberAppendsFreshId(seed, s, p, a.familyLinkToId); }
      AppendNextId(s.patients, p.(id := NextPatientId(s.patients)));
    } else {
      PatientIdsKept(seed, s, a);
      SameIdsAgree(s.patients, r.patients);
    }
  }

  /** Ids are not monotonic across a delete: once the patient holding the
      largest id is deleted, the next add issues an id no larger than the
      deleted one. */
  lemma {:induction false} DeletedTopIdCanBeReissued(seed: Seed, s: State, k: int, p: Patient)
    requires UniqueIds(s.patients) && 0 <= k < |s.patients|
    requires s.patients[k].id == MaxId(s.patients) && s.patients[k].id >= 1
    ensures var top := s.patients[k].id;
      var t := Reduce(seed, Reduce(seed, s, DeletePatient(top)), AddPatient(p));
      t.patients[|t.patients| - 1].id <= top
  {
    var top := s.patients[k].id;
    var r := Reduce(seed, s, DeletePatient(top));
    DeletePatientRemoves(seed, s, top);
    AddPatientAppendsFreshId(seed, r, p);
    forall j | 0 <= j < |r.patients| ensures r.patients[j].id < top {
      assert r.patients[j] in r.patients;
    }
    if MaxId(r.patients) != 0 {
      var j :| 0 <= j < |r.patients| && r.patients[j].id == MaxId(r.patients);
    }
  }

  /** With ids 1 to N in place, deleting patient N leaves N - 1 as the
      largest id. */
  lemma {:induction false} RemoveTopOfNumbered(ps: seq<Patient>)
    requires |ps| >= 1 && forall k :: 0 <= k < |ps| ==> ps[k].id == k + 1
    ensures MaxId(RemovePatient(ps, |ps|)) == |ps| - 1
  {
    var n := |ps|;
    var t := RemovePatient(ps, n);
    forall j | 0 <= j < |t| ensures t[j].id <= n - 1 {
      assert t[j] in t;
    }
    if n > 1 {
      assert ps[n - 2] in t;
      var j :| 0 <= j < |t| && t[j] == ps[n - 2];
      MaxIdCharacterized(t, n - 1);
    } else {
      assert forall q :: q !in t;
      assert t == [];
    }
  }

  /** With ids 1 to N in place, deleting patient N and adding a patient
      issues N again. */
  lemma DeleteThenAddReissues(seed: Seed, s: State, p: Patient)
    requires |s.patients| >= 1 && forall k :: 0 <= k < |s.patients| ==> s.patients[k].id == k + 1
    ensures var n := |s.patients|;
      var t := Reduce(seed, Reduce(seed, s, DeletePatient(n)), AddPatient(p));
      t.patients[|t.patients| - 1].id == n
  {
    var r := Reduce(seed, s, DeletePatient(|s.patients|));
    DeletePatientRemoves(seed, s, |s.patients|);
    RemoveTopOfNumbered(s.patients);
    AddPatientAppendsFreshId(seed, r, p);
  }

  // -------------------------------------------------------------- attempts

  /** Only starting an assessment changes the attempt count, and by one. */
  lemma AttemptsStep(seed: Seed, s: State, a: Action)
    requires Enabled(s, a)
    ensures Reduce(seed, s, a).assessmentAttempts ==
            s.assessmentAttempts + (if a.StartAssessment? then 1 else 0)
  {
    if Resets(a) {
      if a.StartAssessment? { StartAssessmentResets(seed, s); } else { RestartAllResets(seed, s); }
    } else if a.DeletePatient? {
      DeletePatientRemoves(seed, s, a.deleteId);
    } else if AddsPatient(a) {
      if a.AddPatient? { AddPatientAppendsFreshId(seed, s, a.newPatient); }
      else { AddFamilyMemberAppendsFreshId(seed, s, a.patientData, a.familyLinkToId); }
    } else {
      PatientIdsKept(seed, s, a);
    }
  }
}
