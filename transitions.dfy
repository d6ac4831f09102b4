/** What each branch of the transition engine does to the session state:
    the new value of every field it touches, the grid cells it marks, and
    that nothing else changes. */
module Transitions {
  import opened Domain
  import opened Grid
  import opened Records
  import opened Text
  import opened Reducer

  // ---------------------------------------------------------------- grading

  /** Marking a cell twice is marking it once, and a marked cell stays marked. */
  lemma VerifyStepIdempotent(m: int, i: nat, s: State)
    ensures VerifyStep(m, i, VerifyStep(m, i, s)) == VerifyStep(m, i, s)
    ensures Cell(VerifyStep(m, i, s).completedSandboxTasks, m, i)
    ensures Grows(s.completedSandboxTasks, VerifyStep(m, i, s).completedSandboxTasks)
  {
  }

  // --------------------------------------------------------------- patients

  /** Adding a patient appends exactly one record, the payload with the next
      id, selects it and marks "create new patient". */
  lemma AddPatientAppendsFreshId(seed: Seed, s: State, p: Patient)
    ensures var r := Reduce(seed, s, AddPatient(p));
      var id := MaxId(s.patients) + 1;
      && r.patients == s.patients + [p.(id := id)]
      && r.selectedPatientId == Some(id)
      && (s.patients == [] ==> id == 1)
      && (forall k :: 0 <= k < |s.patients| ==> s.patients[k].id != id)
      && (forall m, i :: Cell(r.completedSandboxTasks, m, i) <==>
                         Cell(s.completedSandboxTasks, m, i) || (m == 1 && i == 0))
      && r == s.(patients := r.patients, selectedPatientId := r.selectedPatientId,
                 completedSandboxTasks := r.completedSandboxTasks)
  {
  }

  /** Adding a family member does the same as adding a patient, except that
      it marks "add family member". */
  lemma AddFamilyMemberAppendsFreshId(seed: Seed, s: State, p: Patient, linkTo: int)
    ensures var r := Reduce(seed, s, AddFamilyMember(p, linkTo));
      var id := MaxId(s.patients) + 1;
      && r.patients == s.patients + [p.(id := id)]
      && r.selectedPatientId == Some(id)
      && (s.patients == [] ==> id == 1)
      && (forall k :: 0 <= k < |s.patients| ==> s.patients[k].id != id)
      && (forall m, i :: Cell(r.completedSandboxTasks, m, i) <==>
                         Cell(s.completedSandboxTasks, m, i) || (m == 1 && i == 1))
      && r == s.(patients := r.patients, selectedPatientId := r.selectedPatientId,
                 completedSandboxTasks := r.completedSandboxTasks)
  {
  }

  /** The patient a family-member add links to is never recorded: the new
      patient keeps whatever kin reference its payload carries, and the
      result does not depend on the link at all. */
  lemma FamilyLinkNotStored(seed: Seed, s: State, p: Patient, linkA: int, linkB: int)
    ensures Reduce(seed, s, AddFamilyMember(p, linkA)) == Reduce(seed, s, AddFamilyMember(p, linkB))
    ensures Reduce(seed, s, AddFamilyMember(p, linkA)).patients[|s.patients|].familyLinkId == p.familyLinkId
  {
  }

  /** Updating a patient replaces every record of that id wholesale and keeps
      the order and the ids; the grading compares against the first stored
      record of that id. */
  lemma UpdatePatientReplaces(seed: Seed, s: State, q: Patient)
    ensures var r := Reduce(seed, s, UpdatePatient(q));
      && |r.patients| == |s.patients|
      && (forall k :: 0 <= k < |s.patients| ==>
            r.patients[k] == (if s.patients[k].id == q.id then q else s.patients[k]))
      && (forall k :: 0 <= k < |s.patients| ==> r.patients[k].id == s.patients[k].id)
      && r == s.(patients := r.patients, completedSandboxTasks := r.completedSandboxTasks)
  {
  }

  /** Which cells the tests of a patient update mark, against the stored record. */
  lemma UpdatePatientChecksFire(q: Patient, stored: Option<Patient>, m: int, i: int)
    ensures Fires(UpdatePatientChecks(q, stored), m, i) <==>
      m == 1 && ((i == 2 && AddressChanged(q, stored)) || (i == 3 && AlertAdded(q, stored)) ||
                 (i == 4 && Deactivated(q, stored)) || (i == 5 && AutomationChanged(q, stored)) ||
                 (i == 6 && PhotoChanged(q, stored)))
  {
    var cs := UpdatePatientChecks(q, stored);
    assert cs[0].passed == AddressChanged(q, stored) && cs[1].passed == AlertAdded(q, stored);
    assert cs[2].passed == Deactivated(q, stored) && cs[3].passed == AutomationChanged(q, stored);
    assert cs[4].passed == PhotoChanged(q, stored);
  }

  /** The grading of a patient update: "edit address", "add medical alert",
      "deactivate", "automation settings" and "photo", each judged against the
      first stored record of that id; no other cell changes. */
  lemma UpdatePatientGrading(seed: Seed, s: State, q: Patient)
    ensures var r := Reduce(seed, s, UpdatePatient(q));
      var stored := FindPatient(s.patients, q.id);
      forall m, i :: Cell(r.completedSandboxTasks, m, i) <==>
        || Cell(s.completedSandboxTasks, m, i)
        || (m == 1 && i == 2 && AddressChanged(q, stored))
        || (m == 1 && i == 3 && AlertAdded(q, stored))
        || (m == 1 && i == 4 && Deactivated(q, stored))
        || (m == 1 && i == 5 && AutomationChanged(q, stored))
        || (m == 1 && i == 6 && PhotoChanged(q, stored))
  {
    var stored := FindPatient(s.patients, q.id);
    forall m, i { UpdatePatientChecksFire(q, stored, m, i); }
  }

  /** Deleting a patient removes every record of that id, keeps all others
      in their order, and clears the selection; nothing is graded. Removal
      splits at every place of the list, which fixes the order. */
  lemma {:induction false} DeletePatientRemoves(seed: Seed, s: State, id: int)
    ensures var r := Reduce(seed, s, DeletePatient(id));
      && (forall p :: p in r.patients <==> p in s.patients && p.id != id)
      && (forall n :: 0 <= n <= |s.patients| ==>
            r.patients == RemovePatient(s.patients[..n], id) + RemovePatient(s.patients[n..], id))
      && r.selectedPatientId == None
      && r == s.(patients := r.patients, selectedPatientId := None)
  {
    forall n | 0 <= n <= |s.patients|
      ensures RemovePatient(s.patients, id) == RemovePatient(s.patients[..n], id) + RemovePatient(s.patients[n..], id)
    {
      assert s.patients == s.patients[..n] + s.patients[n..];
      RemovePatientAppend(s.patients[..n], s.patients[n..], id);
    }
  }

  /** Selecting sets the selection, existing patient or not; choosing a
      patient (not "none") marks "search/select patient". */
  lemma SelectPatientSelects(seed: Seed, s: State, sel: Option<int>)
    ensures var r := Reduce(seed, s, SelectPatient(sel));
      && r.selectedPatientId == sel
      && (forall m, i :: Cell(r.completedSandboxTasks, m, i) <==>
                         Cell(s.completedSandboxTasks, m, i) || (sel.Some? && m == 0 && i == 0))
      && r == s.(selectedPatientId := sel, completedSandboxTasks := r.completedSandboxTasks)
  {
  }

  // ----------------------------------------------------------- appointments

  /** Scheduling appends the whole batch in order; it always marks "book a
      slot", and "assign Dr. Smith" and "block provider time" exactly when
      some appointment of the batch qualifies. */
  lemma ScheduleAppendsInOrder(seed: Seed, s: State, xs: seq<Appointment>)
    ensures var r := Reduce(seed, s, ScheduleAppointments(xs));
      && r.appointments == s.appointments + xs
      && r == s.(appointments := r.appointments, completedSandboxTasks := r.completedSandboxTasks)
  {
  }

  /** Which cells the tests of a schedule mark. */
  lemma ScheduleChecksFire(xs: seq<Appointment>, m: int, i: int)
    ensures Fires(ScheduleChecks(xs), m, i) <==>
      m == 0 && (i == 1 || (i == 2 && SomeProvider(xs, "Dr. Smith")) || (i == 4 && SomeBlock(xs)))
  {
    var cs := ScheduleChecks(xs);
    assert cs[0].passed && cs[1].passed == SomeProvider(xs, "Dr. Smith") && cs[2].passed == SomeBlock(xs);
  }

  /** The grading of a schedule: "book a slot" always, "assign Dr. Smith" and
      "block provider time" exactly when some appointment of the batch
      qualifies; no other cell changes. */
  lemma ScheduleGrading(seed: Seed, s: State, xs: seq<Appointment>)
    ensures var r := Reduce(seed, s, ScheduleAppointments(xs));
      forall m, i :: Cell(r.completedSandboxTasks, m, i) <==>
        || Cell(s.completedSandboxTasks, m, i)
        || (m == 0 && i == 1)
        || (m == 0 && i == 2 && exists k :: 0 <= k < |xs| && xs[k].provider == "Dr. Smith")
        || (m == 0 && i == 4 && exists k :: 0 <= k < |xs| && xs[k].isBlock)
  {
    forall m, i { ScheduleChecksFire(xs, m, i); }
  }

  /** Updating an appointment replaces every one of that id wholesale; it marks
      "confirm status" for a FIRM payload, and "reschedule" when the first
      stored appointment of that id had another start time or operatory. */
  lemma UpdateAppointmentReplaces(seed: Seed, s: State, q: Appointment)
    ensures var r := Reduce(seed, s, UpdateAppointment(q));
      && |r.appointments| == |s.appointments|
      && (forall k :: 0 <= k < |s.appointments| ==>
            r.appointments[k] == (if s.appointments[k].aptId == q.aptId then q else s.appointments[k]))
      && r == s.(appointments := r.appointments, completedSandboxTasks := r.completedSandboxTasks)
  {
  }

  /** Which cells the tests of an appointment update mark. */
  lemma UpdateAppointmentChecksFire(q: Appointment, prev: Option<Appointment>, m: int, i: int)
    ensures Fires(UpdateAppointmentChecks(q, prev), m, i) <==>
      m == 0 && ((i == 3 && q.aptStatus == "FIRM") || (i == 5 && Rescheduled(q, prev)))
  {
    var cs := UpdateAppointmentChecks(q, prev);
    assert cs[0].passed == (q.aptStatus == "FIRM") && cs[1].passed == Rescheduled(q, prev);
  }

  /** The grading of an appointment update: "confirm status" for a FIRM
      payload, "reschedule" when the first stored appointment of that id had
      another start time or operatory (so never for an id not stored); no
      other cell changes. */
  lemma UpdateAppointmentGrading(seed: Seed, s: State, q: Appointment)
    ensures var r := Reduce(seed, s, UpdateAppointment(q));
      var prev := FindAppointment(s.appointments, q.aptId);
      forall m, i :: Cell(r.completedSandboxTasks, m, i) <==>
        || Cell(s.completedSandboxTasks, m, i)
        || (m == 0 && i == 3 && q.aptStatus == "FIRM")
        || (m == 0 && i == 5 && prev.Some? &&
            (prev.value.startTime != q.startTime || prev.value.operatory != q.operatory))
  {
    var prev := FindAppointment(s.appointments, q.aptId);
    forall m, i { UpdateAppointmentChecksFire(q, prev, m, i); }
  }

  /** Moving rewrites start time and operatory of every calendar appointment of
      that id, leaves every other field of it, and the pinboard and the
      waitlist, as they were, and marks "reschedule". */
  lemma MoveAppointmentReschedules(seed: Seed, s: State, id: string, start: int, op: int, src: Placement)
    ensures var r := Reduce(seed, s, MoveAppointment(id, start, op, src));
      && |r.appointments| == |s.appointments|
      && (forall k :: 0 <= k < |s.appointments| && s.appointments[k].aptId == id ==>
            r.appointments[k] == s.appointments[k].(startTime := start, operatory := op))
      && (forall k :: 0 <= k < |s.appointments| && s.appointments[k].aptId != id ==>
            r.appointments[k] == s.appointments[k])
      && (forall m, i :: Cell(r.completedSandboxTasks, m, i) <==>
                         Cell(s.completedSandboxTasks, m, i) || (m == 0 && i == 5))
      && r == s.(appointments := r.appointments, completedSandboxTasks := r.completedSandboxTasks)
  {
  }

  /** The collection the caller names as the move's source plays no part. */
  lemma MoveIgnoresSource(seed: Seed, s: State, id: string, start: int, op: int, p1: Placement, p2: Placement)
    ensures Reduce(seed, s, MoveAppointment(id, start, op, p1)) ==
            Reduce(seed, s, MoveAppointment(id, start, op, p2))
  {
  }

  /** Pinning an appointment present on the calendar removes every appointment
      of that id from it, appends the first one found, unchanged, to the
      pinboard and marks "pinboard". */
  lemma {:induction false} PinMovesToPinboard(seed: Seed, s: State, id: string)
    requires HasAppointment(s.appointments, id)
    ensures var r := Reduce(seed, s, PinAppointment(id));
      var n := |s.pinboardAppointments|;
      && (forall a :: a in r.appointments <==> a in s.appointments && a.aptId != id)
      && (forall c :: 0 <= c <= |s.appointments| ==>
            r.appointments == RemoveAppointment(s.appointments[..c], id) + RemoveAppointment(s.appointments[c..], id))
      && |r.pinboardAppointments| == n + 1
      && r.pinboardAppointments[..n] == s.pinboardAppointments
      && (exists k :: 0 <= k < |s.appointments| && s.appointments[k] == r.pinboardAppointments[n] &&
                      r.pinboardAppointments[n].aptId == id &&
                      forall j :: 0 <= j < k ==> s.appointments[j].aptId != id)
      && (forall m, i :: Cell(r.completedSandboxTasks, m, i) <==>
                         Cell(s.completedSandboxTasks, m, i) || (m == 0 && i == 6))
      && r == s.(appointments := r.appointments, pinboardAppointments := r.pinboardAppointments,
                 completedSandboxTasks := r.completedSandboxTasks)
  {
    forall c | 0 <= c <= |s.appointments|
      ensures RemoveAppointment(s.appointments, id) ==
              RemoveAppointment(s.appointments[..c], id) + RemoveAppointment(s.appointments[c..], id)
    {
      assert s.appointments == s.appointments[..c] + s.appointments[c..];
      RemoveAppointmentAppend(s.appointments[..c], s.appointments[c..], id);
    }
  }

  /** Updating an appointment keeps every calendar id in its place, so it
      keeps the calendar and the pinboard free of shared ids. */
  lemma UpdateAppointmentKeepsPlacementsDisjoint(seed: Seed, s: State, q: Appointment)
    requires PlacementsDisjoint(s)
    ensures PlacementsDisjoint(Reduce(seed, s, UpdateAppointment(q)))
  {
    UpdateAppointmentReplaces(seed, s, q);
  }

  /** Moving keeps every calendar id in its place, so it keeps the calendar
      and the pinboard free of shared ids. */
  lemma MoveKeepsPlacementsDisjoint(seed: Seed, s: State, id: string, start: int, op: int, src: Placement)
    requires PlacementsDisjoint(s)
    ensures PlacementsDisjoint(Reduce(seed, s, MoveAppointment(id, start, op, src)))
  {
    MoveAppointmentReschedules(seed, s, id, start, op, src);
  }

  /** Scheduling checks nothing against the pinboard: booking an appointment
      whose id is pinned puts that id in both places. */
  lemma {:induction false} SchedulePinnedIdShared(seed: Seed, s: State, x: Appointment, j: int)
    requires 0 <= j < |s.pinboardAppointments| && s.pinboardAppointments[j].aptId == x.aptId
    ensures !PlacementsDisjoint(Reduce(seed, s, ScheduleAppointments([x])))
  {
    var r := Reduce(seed, s, ScheduleAppointments([x]));
    ScheduleAppendsInOrder(seed, s, [x]);
    assert r.appointments[|s.appointments|] == x;
    assert r.pinboardAppointments[j] == s.pinboardAppointments[j];
  }

  /** If no id is on both the calendar and the pinboard, pinning keeps it so. */
  lemma {:induction false} PinKeepsPlacementsDisjoint(seed: Seed, s: State, id: string)
    requires HasAppointment(s.appointments, id)
    requires PlacementsDisjoint(s)
    ensures PlacementsDisjoint(Reduce(seed, s, PinAppointment(id)))
  {
    var r := Reduce(seed, s, PinAppointment(id));
    PinMovesToPinboard(seed, s, id);
    var n := |s.pinboardAppointments|;
    forall i, j | 0 <= i < |r.appointments| && 0 <= j < |r.pinboardAppointments|
      ensures r.appointments[i].aptId != r.pinboardAppointments[j].aptId
    {
      var a := r.appointments[i];
      assert a in r.appointments;
      assert a in s.appointments && a.aptId != id;
      if j < n {
        var i0 :| 0 <= i0 < |s.appointments| && s.appointments[i0] == a;
        assert r.pinboardAppointments[j] == s.pinboardAppointments[j];
      }
    }
  }

  // ------------------------------------------------------------------ billing

  /** Posting a ledger entry appends exactly one line, with the generated id
      and a balance of zero, to every patient of that id and to no other.
      It always marks "ledger entry", and marks "post $100" for a payment of
      100, "new charge" for a positive charge, "adjustment" for a positive
      write-off and "refund" when the description mentions a refund in any
      letter case. */
  lemma LedgerAppendsOneEntry(seed: Seed, s: State, pid: int, e: LedgerInput, eid: string)
    ensures var r := Reduce(seed, s, AddLedgerEntry(pid, e, eid));
      var line := LedgerEntry(eid, e.charge, e.payment, e.writeOff, e.description, 0);
      && |r.patients| == |s.patients|
      && (forall k :: 0 <= k < |s.patients| && s.patients[k].id == pid ==>
            r.patients[k] == s.patients[k].(ledger := s.patients[k].ledger + [line]))
      && (forall k :: 0 <= k < |s.patients| && s.patients[k].id != pid ==> r.patients[k] == s.patients[k])
      && r == s.(patients := r.patients, completedSandboxTasks := r.completedSandboxTasks)
  {
  }

  /** Which cells the tests of a ledger entry mark. */
  lemma LedgerChecksFire(e: LedgerInput, m: int, i: int)
    ensures Fires(LedgerChecks(e), m, i) <==>
      m == 2 && (i == 0 || (i == 1 && e.payment == 100) || (i == 2 && e.charge > 0) ||
                 (i == 3 && e.writeOff > 0) || (i == 6 && Contains(ToLower(e.description), "refund")))
  {
    var cs := LedgerChecks(e);
    assert cs[0].passed && cs[1].passed == (e.payment == 100);
    assert cs[2].passed == (e.charge > 0) && cs[3].passed == (e.writeOff > 0);
    assert cs[4].passed == Contains(ToLower(e.description), "refund");
  }

  /** The grading of a ledger entry: "ledger entry" always, "post $100" for a
      payment of exactly 100, "new charge" for a positive charge,
      "adjustment" for a positive write-off and "refund" when the lower-cased
      description contains "refund"; no other cell changes. */
  lemma LedgerGrading(seed: Seed, s: State, pid: int, e: LedgerInput, eid: string)
    ensures var r := Reduce(seed, s, AddLedgerEntry(pid, e, eid));
      forall m, i :: Cell(r.completedSandboxTasks, m, i) <==>
        || Cell(s.completedSandboxTasks, m, i)
        || (m == 2 && i == 0)
        || (m == 2 && i == 1 && e.payment == 100)
        || (m == 2 && i == 2 && e.charge > 0)
        || (m == 2 && i == 3 && e.writeOff > 0)
        || (m == 2 && i == 6 && Contains(ToLower(e.description), "refund"))
  {
    forall m, i { LedgerChecksFire(e, m, i); }
  }

  /** A claim is appended and marks "claim". */
  lemma ClaimAppended(seed: Seed, s: State, c: InsuranceClaim)
    ensures var r := Reduce(seed, s, AddClaim(c));
      && r.claims == s.claims + [c]
      && (forall m, i :: Cell(r.completedSandboxTasks, m, i) <==>
                         Cell(s.completedSandboxTasks, m, i) || (m == 2 && i == 4))
      && r == s.(claims := r.claims, completedSandboxTasks := r.completedSandboxTasks)
  {
  }

  /** A pre-authorisation is appended and marks "pre-auth". */
  lemma PreAuthAppended(seed: Seed, s: State, pa: PreAuthorization)
    ensures var r := Reduce(seed, s, AddPreAuth(pa));
      && r.preAuthorizations == s.preAuthorizations + [pa]
      && (forall m, i :: Cell(r.completedSandboxTasks, m, i) <==>
                         Cell(s.completedSandboxTasks, m, i) || (m == 2 && i == 5))
      && r == s.(preAuthorizations := r.preAuthorizations, completedSandboxTasks := r.completedSandboxTasks)
  {
  }

  // ---------------------------------------------------------------- charting

  /** A chart update appends one entry to the chart of every patient of that
      id. It always marks "history log updated", and marks "missing",
      "treatment planned", "procedure" and "note" by the entry's content. */
  lemma ChartAppendsOne(seed: Seed, s: State, pid: int, t: ToothState)
    ensures var r := Reduce(seed, s, UpdateChart(pid, t));
      && |r.patients| == |s.patients|
      && (forall k :: 0 <= k < |s.patients| && s.patients[k].id == pid ==>
            r.patients[k] == s.patients[k].(chart := s.patients[k].chart + [t]))
      && (forall k :: 0 <= k < |s.patients| && s.patients[k].id != pid ==> r.patients[k] == s.patients[k])
      && r == s.(patients := r.patients, completedSandboxTasks := r.completedSandboxTasks)
  {
  }

  /** Which cells the tests of a chart update mark. */
  lemma ChartChecksFire(t: ToothState, m: int, i: int)
    ensures Fires(ChartChecks(t), m, i) <==>
      m == 4 && ((i == 1 && t.status == Missing) || (i == 2 && t.status == TreatmentPlanned) ||
                 (i == 3 && Truthy(t.procedure)) || (i == 4 && Truthy(t.notes)) || i == 6)
  {
    var cs := ChartChecks(t);
    assert cs[0].passed == (t.status == Missing) && cs[1].passed == (t.status == TreatmentPlanned);
    assert cs[2].passed == Truthy(t.procedure) && cs[3].passed == Truthy(t.notes) && cs[4].passed;
  }

  /** The grading of a chart update: "missing" and "treatment planned" by
      status, "procedure" and "note" when present and non-empty, "history log
      updated" always; no other cell changes. */
  lemma ChartGrading(seed: Seed, s: State, pid: int, t: ToothState)
    ensures var r := Reduce(seed, s, UpdateChart(pid, t));
      forall m, i :: Cell(r.completedSandboxTasks, m, i) <==>
        || Cell(s.completedSandboxTasks, m, i)
        || (m == 4 && i == 1 && t.status == Missing)
        || (m == 4 && i == 2 && t.status == TreatmentPlanned)
        || (m == 4 && i == 3 && t.procedure.Some? && t.procedure.value != "")
        || (m == 4 && i == 4 && t.notes.Some? && t.notes.value != "")
        || (m == 4 && i == 6)
  {
    forall m, i { ChartChecksFire(t, m, i); }
  }

  /** A bulk chart update appends the entries, in order, to the chart of every
      patient of that id and marks "bulk update". */
  lemma BulkChartAppends(seed: Seed, s: State, pid: int, ts: seq<ToothState>)
    ensures var r := Reduce(seed, s, BulkUpdateChart(pid, ts));
      && |r.patients| == |s.patients|
      && (forall k :: 0 <= k < |s.patients| && s.patients[k].id == pid ==>
            r.patients[k] == s.patients[k].(chart := s.patients[k].chart + ts))
      && (forall k :: 0 <= k < |s.patients| && s.patients[k].id != pid ==> r.patients[k] == s.patients[k])
      && (forall m, i :: Cell(r.completedSandboxTasks, m, i) <==>
                         Cell(s.completedSandboxTasks, m, i) || (m == 4 && i == 5))
      && r == s.(patients := r.patients, completedSandboxTasks := r.completedSandboxTasks)
  {
  }

  // ------------------------------------------------------- office management

  /** Logging appends one entry, with the time it is given, to the action
      log and changes nothing else but the grid. */
  lemma LogActionAppends(seed: Seed, s: State, kind: string, report: Option<string>, at: int)
    ensures var r := Reduce(seed, s, LogAction(kind, report, at));
      && r.actions == s.actions + [LoggedAction(kind, report, at)]
      && r == s.(actions := r.actions, completedSandboxTasks := r.completedSandboxTasks)
  {
  }

  /** Which cells the tests of a logged action mark. */
  lemma LogActionChecksFire(kind: string, report: Option<string>, m: int, i: int)
    ensures Fires(LogActionChecks(kind, report), m, i) <==>
      || (m == 3 && i == 0 && report == Some("Day Sheet"))
      || (m == 3 && i == 1 && kind == "run_report")
      || (m == 3 && i == 2 && report == Some("Deposit Slip"))
      || (m == 3 && i == 3 && report == Some("Recall Management"))
      || (m == 3 && i == 6 && report == Some("End-of-Day"))
      || (m == 1 && i == 6 && kind == "upload_photo")
      || (m == 1 && i == 5 && kind == "manual_reminder_send")
      || (m == 4 && i == 0 && kind == "tooth_search")
  {
    var cs := LogActionChecks(kind, report);
    assert cs[0].passed == (report == Some("Day Sheet"));
    assert cs[1].passed == (kind == "run_report");
    assert cs[2].passed == (report == Some("Deposit Slip"));
    assert cs[3].passed == (report == Some("Recall Management"));
    assert cs[4].passed == (report == Some("End-of-Day"));
    assert cs[5].passed == (kind == "upload_photo");
    assert cs[6].passed == (kind == "manual_reminder_send");
    assert cs[7].passed == (kind == "tooth_search");
  }

  /** The grading of a logged action: report names and kinds mark the
      reporting steps, and three kinds mark steps of the patient and
      charting modules; no other cell changes. */
  lemma LogActionGrading(seed: Seed, s: State, kind: string, report: Option<string>, at: int)
    ensures var r := Reduce(seed, s, LogAction(kind, report, at));
      forall m, i :: Cell(r.completedSandboxTasks, m, i) <==>
        || Cell(s.completedSandboxTasks, m, i)
        || (m == 3 && i == 0 && report == Some("Day Sheet"))
        || (m == 3 && i == 1 && kind == "run_report")
        || (m == 3 && i == 2 && report == Some("Deposit Slip"))
        || (m == 3 && i == 3 && report == Some("Recall Management"))
        || (m == 3 && i == 6 && report == Some("End-of-Day"))
        || (m == 1 && i == 6 && kind == "upload_photo")
        || (m == 1 && i == 5 && kind == "manual_reminder_send")
        || (m == 4 && i == 0 && kind == "tooth_search")
  {
    forall m, i { LogActionChecksFire(kind, report, m, i); }
  }

  /** A recall type is appended and marks "recall configuration". */
  lemma RecallTypeAppended(seed: Seed, s: State, rt: RecallType)
    ensures var r := Reduce(seed, s, AddRecallType(rt));
      && r.recallTypes == s.recallTypes + [rt]
      && (forall m, i :: Cell(r.completedSandboxTasks, m, i) <==>
                         Cell(s.completedSandboxTasks, m, i) || (m == 3 && i == 4))
      && r == s.(recallTypes := r.recallTypes, completedSandboxTasks := r.completedSandboxTasks)
  {
  }

  /** A toast is appended with the generated id; one whose message mentions an
      export, in any letter case, marks "export". */
  lemma ToastAppended(seed: Seed, s: State, msg: string, tid: string)
    ensures var r := Reduce(seed, s, AddToast(msg, tid));
      && r.toasts == s.toasts + [ToastMessage(tid, msg)]
      && (forall m, i :: Cell(r.completedSandboxTasks, m, i) <==>
                         Cell(s.completedSandboxTasks, m, i) ||
                         (m == 3 && i == 5 && exists j :: OccursAt(ToLower(msg), "export", j)))
      && r == s.(toasts := r.toasts, completedSandboxTasks := r.completedSandboxTasks)
  {
  }

  /** Removing a toast drops every toast of that id and keeps all others in
      their order. */
  lemma {:induction false} ToastRemoved(seed: Seed, s: State, id: string)
    ensures var r := Reduce(seed, s, RemoveToastAction(id));
      && (forall t :: t in r.toasts <==> t in s.toasts && t.toastId != id)
      && (forall n :: 0 <= n <= |s.toasts| ==>
            r.toasts == RemoveToast(s.toasts[..n], id) + RemoveToast(s.toasts[n..], id))
      && r == s.(toasts := r.toasts)
  {
    forall n | 0 <= n <= |s.toasts|
      ensures RemoveToast(s.toasts, id) == RemoveToast(s.toasts[..n], id) + RemoveToast(s.toasts[n..], id)
    {
      assert s.toasts == s.toasts[..n] + s.toasts[n..];
      RemoveToastAppend(s.toasts[..n], s.toasts[n..], id);
    }
  }

  // -------------------------------------------------------------- assessment

  /** Starting an assessment discards everything for the initial state, turns
      assessment mode on and counts one more attempt. */
  lemma StartAssessmentResets(seed: Seed, s: State)
    ensures var r := Reduce(seed, s, StartAssessment);
      && r == Initial(seed).(assessmentMode := true, assessmentAttempts := r.assessmentAttempts)
      && r.assessmentAttempts == s.assessmentAttempts + 1
      && r.patients == seed.seedPatients && r.appointments == seed.seedAppointments
      && (forall m, i :: !Cell(r.completedSandboxTasks, m, i))
  {
  }

  /** Restarting discards everything for the initial state but keeps the
      attempt count. */
  lemma RestartAllResets(seed: Seed, s: State)
    ensures var r := Reduce(seed, s, RestartAll);
      && r == Initial(seed).(assessmentAttempts := s.assessmentAttempts)
      && !r.assessmentMode
      && (forall m, i :: !Cell(r.completedSandboxTasks, m, i))
  {
  }

  /** Ending an assessment only turns assessment mode off. */
  lemma EndAssessmentOnlyClearsMode(seed: Seed, s: State)
    ensures Reduce(seed, s, EndAssessment) == s.(assessmentMode := false)
  {
  }

  /** An action kind without a branch leaves the state exactly as it was. */
  lemma UnhandledIsIdentity(seed: Seed, s: State, k: UnhandledKind)
    ensures Reduce(seed, s, Unhandled(k)) == s
  {
  }
}
