/** Lookups and whole-collection rewrites the transitions are built from:
    the engine's `find`, `filter` and `map` calls, one per use. */
module Records {
  import opened Domain

  function Max(a: int, b: int): int { if a < b then b else a }

  /** The largest patient id, or 0 when that is larger (and for no patients). */
  function MaxId(ps: seq<Patient>): (r: int)
    ensures r >= 0
    ensures forall k :: 0 <= k < |ps| ==> ps[k].id <= r
    ensures r == 0 || exists k :: 0 <= k < |ps| && ps[k].id == r
  {
    if ps == [] then 0 else Max(ps[0].id, MaxId(ps[1..]))
  }

  /** The id the engine gives a new patient. */
  function NextPatientId(ps: seq<Patient>): (r: int)
    ensures r >= 1
    ensures forall k :: 0 <= k < |ps| ==> ps[k].id < r
    ensures ps == [] ==> r == 1
  {
    MaxId(ps) + 1
  }

  /** The first patient with id `id`, if any. */
  function FindPatient(ps: seq<Patient>, id: int): (r: Option<Patient>)
    ensures r.None? <==> forall k :: 0 <= k < |ps| ==> ps[k].id != id
    ensures r.Some? ==> exists k :: 0 <= k < |ps| && ps[k] == r.value &&
                                    r.value.id == id &&
                                    forall j :: 0 <= j < k ==> ps[j].id != id
  {
    if ps == [] then None
    else if ps[0].id == id then Some(ps[0])
    else
      var r := FindPatient(ps[1..], id);
      assert r.Some? ==> exists k :: 0 <= k < |ps| && ps[k] == r.value &&
                                         forall j :: 0 <= j < k ==> ps[j].id != id by {
        if r.Some? {
          var k :| 0 <= k < |ps[1..]| && ps[1..][k] == r.value &&
                   forall j :: 0 <= j < k ==> ps[1..][j].id != id;
          assert ps[k + 1] == r.value;
          forall j | 0 <= j < k + 1 ensures ps[j].id != id {
            if j > 0 { assert ps[j] == ps[1..][j - 1]; }
          }
        }
      }
      r
  }

  /** Every patient whose id is `q.id` replaced by `q`: ids stay in place,
      and every other record is kept. */
  function ReplacePatient(ps: seq<Patient>, q: Patient): (r: seq<Patient>)
    ensures SameIds(ps, r)
    ensures forall k :: 0 <= k < |ps| && ps[k].id == q.id ==> r[k] == q
    ensures forall k :: 0 <= k < |ps| && ps[k].id != q.id ==> r[k] == ps[k]
  {
    seq(|ps|, k requires 0 <= k < |ps| => if ps[k].id == q.id then q else ps[k])
  }

  /** The patients without the ones whose id is `id`, in their order. */
  function RemovePatient(ps: seq<Patient>, id: int): (r: seq<Patient>)
    ensures |r| <= |ps|
    ensures forall p :: p in r <==> p in ps && p.id != id
    ensures (forall k :: 0 <= k < |ps| ==> ps[k].id != id) ==> r == ps
  {
    if ps == [] then []
    else if ps[0].id == id then RemovePatient(ps[1..], id)
    else [ps[0]] + RemovePatient(ps[1..], id)
  }

  /** Removal works piece by piece, so it keeps the order of the remaining
      patients and their repetitions. */
  lemma {:induction false} RemovePatientAppend(xs: seq<Patient>, ys: seq<Patient>, id: int)
    ensures RemovePatient(xs + ys, id) == RemovePatient(xs, id) + RemovePatient(ys, id)
  {
    if xs == [] {
      assert xs + ys == ys;
    } else {
      assert (xs + ys)[0] == xs[0] && (xs + ys)[1..] == xs[1..] + ys;
      RemovePatientAppend(xs[1..], ys, id);
    }
  }

  /** Removing patients keeps the remaining ids distinct. */
  lemma {:induction false} RemovePatientKeepsUnique(ps: seq<Patient>, id: int)
    requires UniqueIds(ps)
    ensures UniqueIds(RemovePatient(ps, id))
  {
    if ps != [] {
      var rest := ps[1..];
      assert UniqueIds(rest) by {
        forall i, j | 0 <= i < j < |rest| ensures rest[i].id != rest[j].id {
          assert rest[i] == ps[i + 1] && rest[j] == ps[j + 1];
        }
      }
      RemovePatientKeepsUnique(rest, id);
      if ps[0].id != id {
        var t := RemovePatient(rest, id);
        forall j | 0 <= j < |t| ensures t[j].id != ps[0].id {
          assert t[j] in t;
          var k :| 0 <= k < |rest| && rest[k] == t[j];
          assert rest[k] == ps[k + 1];
        }
        assert RemovePatient(ps, id) == [ps[0]] + t;
      }
    }
  }

  /** `MaxId` is the one number that bounds every id, is not negative and is
      either 0 or some patient's id. */
  lemma MaxIdCharacterized(ps: seq<Patient>, v: int)
    requires v >= 0 && forall k :: 0 <= k < |ps| ==> ps[k].id <= v
    requires v == 0 || exists k :: 0 <= k < |ps| && ps[k].id == v
    ensures MaxId(ps) == v
  {
  }

  /** The two lists hold the same ids at the same places. */
  predicate SameIds(ps: seq<Patient>, qs: seq<Patient>) {
    |ps| == |qs| && forall k :: 0 <= k < |ps| ==> ps[k].id == qs[k].id
  }

  /** `qs` keeps every patient place of `ps` with its id, and the ledger and
      chart there only grew at their ends. */
  predicate Extends(ps: seq<Patient>, qs: seq<Patient>) {
    |ps| <= |qs| &&
    forall k :: 0 <= k < |ps| ==>
      qs[k].id == ps[k].id && ps[k].ledger <= qs[k].ledger && ps[k].chart <= qs[k].chart
  }

  /** Growth of the patient list, the ledgers and the charts composes. */
  lemma ExtendsTransitive(ps: seq<Patient>, qs: seq<Patient>, ts: seq<Patient>)
    requires Extends(ps, qs) && Extends(qs, ts)
    ensures Extends(ps, ts)
  {
  }

  /** Lists with the same ids in the same places agree on distinctness and on
      the largest id. */
  lemma SameIdsAgree(ps: seq<Patient>, qs: seq<Patient>)
    requires SameIds(ps, qs)
    ensures UniqueIds(ps) <==> UniqueIds(qs)
    ensures MaxId(ps) == MaxId(qs)
  {
    MaxIdCharacterized(qs, MaxId(ps));
  }

  /** Appending a patient with the next id keeps ids distinct and raises the
      largest id by one. */
  lemma AppendNextId(ps: seq<Patient>, p: Patient)
    requires p.id == NextPatientId(ps)
    ensures UniqueIds(ps) ==> UniqueIds(ps + [p])
    ensures MaxId(ps + [p]) == MaxId(ps) + 1
  {
    assert (ps + [p])[|ps|] == p;
    MaxIdCharacterized(ps + [p], p.id);
  }

  /** `e` appended to the ledger of every patient whose id is `pid`. */
  function AppendLedger(ps: seq<Patient>, pid: int, e: LedgerEntry): (r: seq<Patient>)
    ensures SameIds(ps, r)
    ensures forall k :: 0 <= k < |ps| && ps[k].id == pid ==> r[k] == ps[k].(ledger := ps[k].ledger + [e])
    ensures forall k :: 0 <= k < |ps| && ps[k].id != pid ==> r[k] == ps[k]
  {
    seq(|ps|, k requires 0 <= k < |ps| =>
      if ps[k].id == pid then ps[k].(ledger := ps[k].ledger + [e]) else ps[k])
  }

  /** `ts` appended to the chart of every patient whose id is `pid`. */
  function AppendChart(ps: seq<Patient>, pid: int, ts: seq<ToothState>): (r: seq<Patient>)
    ensures SameIds(ps, r)
    ensures forall k :: 0 <= k < |ps| && ps[k].id == pid ==> r[k] == ps[k].(chart := ps[k].chart + ts)
    ensures forall k :: 0 <= k < |ps| && ps[k].id != pid ==> r[k] == ps[k]
  {
    seq(|ps|, k requires 0 <= k < |ps| =>
      if ps[k].id == pid then ps[k].(chart := ps[k].chart + ts) else ps[k])
  }

  /** The first appointment with id `id`, if any. */
  function FindAppointment(xs: seq<Appointment>, id: string): (r: Option<Appointment>)
    ensures r.None? <==> forall k :: 0 <= k < |xs| ==> xs[k].aptId != id
    ensures r.Some? ==> exists k :: 0 <= k < |xs| && xs[k] == r.value &&
                                    r.value.aptId == id &&
                                    forall j :: 0 <= j < k ==> xs[j].aptId != id
  {
    if xs == [] then None
    else if xs[0].aptId == id then Some(xs[0])
    else
      var r := FindAppointment(xs[1..], id);
      assert r.Some? ==> exists k :: 0 <= k < |xs| && xs[k] == r.value &&
                                         forall j :: 0 <= j < k ==> xs[j].aptId != id by {
        if r.Some? {
          var k :| 0 <= k < |xs[1..]| && xs[1..][k] == r.value &&
                   forall j :: 0 <= j < k ==> xs[1..][j].aptId != id;
          assert xs[k + 1] == r.value;
          forall j | 0 <= j < k + 1 ensures xs[j].aptId != id {
            if j > 0 { assert xs[j] == xs[1..][j - 1]; }
          }
        }
      }
      r
  }

  /** There is an appointment with id `id`. */
  predicate HasAppointment(xs: seq<Appointment>, id: string) {
    exists k :: 0 <= k < |xs| && xs[k].aptId == id
  }

  /** Every appointment whose id is `q.aptId` replaced by `q`; the ids stay in
      place and every other appointment is kept. */
  function ReplaceAppointment(xs: seq<Appointment>, q: Appointment): (r: seq<Appointment>)
    ensures |r| == |xs|
    ensures forall k :: 0 <= k < |xs| ==> r[k].aptId == xs[k].aptId
    ensures forall k :: 0 <= k < |xs| && xs[k].aptId == q.aptId ==> r[k] == q
    ensures forall k :: 0 <= k < |xs| && xs[k].aptId != q.aptId ==> r[k] == xs[k]
  {
    seq(|xs|, k requires 0 <= k < |xs| => if xs[k].aptId == q.aptId then q else xs[k])
  }

  /** Every appointment with id `id` given a new start time and operatory. */
  function RescheduleAppointment(xs: seq<Appointment>, id: string, start: int, op: int): (r: seq<Appointment>)
    ensures |r| == |xs|
    ensures forall k :: 0 <= k < |xs| ==> r[k].aptId == xs[k].aptId
    ensures forall k :: 0 <= k < |xs| && xs[k].aptId == id ==>
              r[k] == xs[k].(startTime := start, operatory := op)
    ensures forall k :: 0 <= k < |xs| && xs[k].aptId != id ==> r[k] == xs[k]
  {
    seq(|xs|, k requires 0 <= k < |xs| =>
      if xs[k].aptId == id then xs[k].(startTime := start, operatory := op) else xs[k])
  }

  /** The appointments without the ones whose id is `id`, in their order. */
  function RemoveAppointment(xs: seq<Appointment>, id: string): (r: seq<Appointment>)
    ensures |r| <= |xs|
    ensures forall a :: a in r <==> a in xs && a.aptId != id
    ensures (forall k :: 0 <= k < |xs| ==> xs[k].aptId != id) ==> r == xs
  {
    if xs == [] then []
    else if xs[0].aptId == id then RemoveAppointment(xs[1..], id)
    else [xs[0]] + RemoveAppointment(xs[1..], id)
  }

  /** Removal works piece by piece, so it keeps the order of the remaining
      appointments and their repetitions. */
  lemma {:induction false} RemoveAppointmentAppend(xs: seq<Appointment>, ys: seq<Appointment>, id: string)
    ensures RemoveAppointment(xs + ys, id) == RemoveAppointment(xs, id) + RemoveAppointment(ys, id)
  {
    if xs == [] {
      assert xs + ys == ys;
    } else {
      assert (xs + ys)[0] == xs[0] && (xs + ys)[1..] == xs[1..] + ys;
      RemoveAppointmentAppend(xs[1..], ys, id);
    }
  }

  /** The toasts without the ones whose id is `id`, in their order. */
  function RemoveToast(ts: seq<ToastMessage>, id: string): (r: seq<ToastMessage>)
    ensures |r| <= |ts|
    ensures forall t :: t in r <==> t in ts && t.toastId != id
    ensures (forall k :: 0 <= k < |ts| ==> ts[k].toastId != id) ==> r == ts
  {
    if ts == [] then []
    else if ts[0].toastId == id then RemoveToast(ts[1..], id)
    else [ts[0]] + RemoveToast(ts[1..], id)
  }

  /** Removal works piece by piece, so it keeps the order of the remaining
      toasts and their repetitions. */
  lemma {:induction false} RemoveToastAppend(xs: seq<ToastMessage>, ys: seq<ToastMessage>, id: string)
    ensures RemoveToast(xs + ys, id) == RemoveToast(xs, id) + RemoveToast(ys, id)
  {
    if xs == [] {
      assert xs + ys == ys;
    } else {
      assert (xs + ys)[0] == xs[0] && (xs + ys)[1..] == xs[1..] + ys;
      RemoveToastAppend(xs[1..], ys, id);
    }
  }
}
