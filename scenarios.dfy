/** Concrete sessions the engine is expected to handle, stated over any seed
    and any state of the stated form. */
module Scenarios {
  import opened Domain
  import opened Grid
  import opened Records
  import opened Text
  import opened Reducer
  import opened Transitions
  import opened Sessions

  /** Seed patients numbered 1 to N: adding a patient to the initial state
      gives N + 1 patients, the new one numbered N + 1 and selected. */
  lemma AddPatientAfterNumberedSeed(seed: Seed, p: Patient)
    requires forall k :: 0 <= k < |seed.seedPatients| ==> seed.seedPatients[k].id == k + 1
    ensures var n := |seed.seedPatients|;
      var r := Reduce(seed, Initial(seed), AddPatient(p));
      && |r.patients| == n + 1
      && r.patients[n] == p.(id := n + 1)
      && r.selectedPatientId == Some(n + 1)
  {
    var ps := seed.seedPatients;
    if |ps| > 0 {
      assert ps[|ps| - 1].id == |ps|;
      MaxIdCharacterized(ps, |ps|);
    }
    AddPatientAppendsFreshId(seed, Initial(seed), p);
  }

  /** Booking one appointment with Dr. Smith marks "book a slot" and
      "assign Dr. Smith" in the same transition. */
  lemma BookingWithDrSmith(seed: Seed, s: State, apt: Appointment)
    requires apt.provider == "Dr. Smith"
    ensures var r := Reduce(seed, s, ScheduleAppointments([apt]));
      Cell(r.completedSandboxTasks, 0, 1) && Cell(r.completedSandboxTasks, 0, 2)
  {
    ScheduleGrading(seed, s, [apt]);
    assert [apt][0].provider == "Dr. Smith";
  }

  /** A copay of 100 posted for patient 1 right after the start marks
      "ledger entry" and "post $100", and leaves "new charge", "adjustment"
      and "refund" undone. */
  lemma CopayFromInitial(seed: Seed, eid: string)
    ensures var e := LedgerInput(0, 100, 0, "copay");
      var r := Reduce(seed, Initial(seed), AddLedgerEntry(1, e, eid));
      var g := r.completedSandboxTasks;
      && Cell(g, 2, 0) && Cell(g, 2, 1)
      && !Cell(g, 2, 2) && !Cell(g, 2, 3) && !Cell(g, 2, 6)
  {
    var e := LedgerInput(0, 100, 0, "copay");
    LedgerGrading(seed, Initial(seed), 1, e, eid);
    assert forall j :: !OccursAt(ToLower("copay"), "refund", j);
  }

  /** Dispatching a qualifying action a second time leaves every cell it
      earned the first time done. */
  lemma RepeatKeepsEarnedCells(seed: Seed, s: State, a: Action)
    requires !Resets(a) && Enabled(s, a) && Enabled(Reduce(seed, s, a), a)
    ensures var r := Reduce(seed, Reduce(seed, s, a), a);
      forall m, i :: Earns(s, a, m, i) ==> Cell(r.completedSandboxTasks, m, i)
  {
    GridExact(seed, s, a);
    GridGrows(seed, Reduce(seed, s, a), a);
  }
}
