/** The clinic's entities and the aggregate session state, trimmed to the
    fields the transition engine reads or writes, plus a few
    fields it only carries along. Every record is a value:
    a transition builds a new state instead of changing the old one. */
module Domain {

  datatype Option<+T> = None | Some(value: T)

  /** A patient is either active or inactive. */
  datatype PatientStatus = Active | Inactive

  /** One posted line of a patient's ledger. `id` and `balance` are filled in
      by the engine; the caller supplies the rest (see `LedgerInput`). */
  datatype LedgerEntry = LedgerEntry(
    entryId: string,
    charge: int,
    payment: int,
    writeOff: int,
    description: string,
    balance: int)

  /** A ledger entry as the caller submits it: without id and balance.
      Amounts are whole numbers; only `== 100` and `> 0` are ever asked. */
  datatype LedgerInput = LedgerInput(
    charge: int,
    payment: int,
    writeOff: int,
    description: string)

  /** Chart statuses the engine distinguishes; every other status is `OtherStatus`. */
  datatype ToothStatus = Missing | TreatmentPlanned | OtherStatus(statusName: string)

  /** One chart entry. The chart is an append-only history of these. */
  datatype ToothState = ToothState(
    toothNumber: int,
    status: ToothStatus,
    procedure: Option<string>,
    notes: Option<string>)

  /** `familyLinkId` is the patient's own reference to a kin patient, as the
      caller filled it in; the engine never sets it. */
  datatype Patient = Patient(
    id: int,
    name: string,
    address: string,
    medicalAlerts: Option<seq<string>>,
    status: PatientStatus,
    automationActive: bool,
    sendConfirmation14Days: bool,
    sendReminder2Days: bool,
    sendFollowUpOnCancel: bool,
    photoUrl: Option<string>,
    familyLinkId: Option<int>,
    ledger: seq<LedgerEntry>,
    chart: seq<ToothState>)

  /** Start times are milliseconds since the epoch, as `Date.getTime()` gives them. */
  datatype Appointment = Appointment(
    aptId: string,
    startTime: int,
    operatory: int,
    provider: string,
    aptStatus: string,
    isBlock: bool)

  /** The three collections an appointment can be held in. */
  datatype Placement = Calendar | Pinboard | Waitlist

  /** Records the engine only appends or resets, trimmed to an id and, for
      claims, pre-authorisations and recall types, one descriptive field. */
  datatype InsuranceClaim = InsuranceClaim(claimId: string, claimPatientId: int)
  datatype PreAuthorization = PreAuthorization(preAuthId: string, preAuthPatientId: int)
  datatype RecallType = RecallType(recallId: string, shortName: string)
  datatype InsuranceVerification = InsuranceVerification(verificationId: string)
  datatype MedicalRecord = MedicalRecord(recordId: string)
  datatype Task = Task(taskId: string)
  datatype PortalMessage = PortalMessage(messageId: string)
  datatype PatientDocument = PatientDocument(documentId: string)

  datatype ToastMessage = ToastMessage(toastId: string, message: string)

  /** An entry of the action log. `reportName` stands for the one field of
      the free-form details that the engine inspects. */
  datatype LoggedAction = LoggedAction(kind: string, reportName: Option<string>, timestamp: int)

  /** The assessment progress grid: module index to one flag per step. */
  type TaskGrid = map<int, seq<bool>>

  /** The undo and redo buffers: reserved in the state, never filled. */
  datatype History = History(past: seq<State>, future: seq<State>)

  datatype State = State(
    patients: seq<Patient>,
    appointments: seq<Appointment>,
    verifications: seq<InsuranceVerification>,
    medicalRecords: seq<MedicalRecord>,
    tasks: seq<Task>,
    portalMessages: seq<PortalMessage>,
    preAuthorizations: seq<PreAuthorization>,
    recallTypes: seq<RecallType>,
    claims: seq<InsuranceClaim>,
    selectedPatientId: Option<int>,
    actions: seq<LoggedAction>,
    history: History,
    pinboardAppointments: seq<Appointment>,
    waitlistAppointments: seq<Appointment>,
    unassignedDocuments: seq<PatientDocument>,
    dayNotes: map<string, string>,
    toasts: seq<ToastMessage>,
    completedSandboxTasks: TaskGrid,
    assessmentMode: bool,
    assessmentAttempts: int)

  /** The static datasets a session starts from. The engine never inspects them. */
  datatype Seed = Seed(
    seedPatients: seq<Patient>,
    seedAppointments: seq<Appointment>,
    seedVerifications: seq<InsuranceVerification>,
    seedMedicalRecords: seq<MedicalRecord>,
    seedTasks: seq<Task>,
    seedPortalMessages: seq<PortalMessage>,
    seedPreAuthorizations: seq<PreAuthorization>,
    seedRecallTypes: seq<RecallType>,
    seedClaims: seq<InsuranceClaim>)

  /** JavaScript truthiness of an optional string: present and non-empty. */
  predicate Truthy(o: Option<string>) {
    o.Some? && o.value != ""
  }

  /** No two patients share an id. */
  ghost predicate UniqueIds(ps: seq<Patient>) {
    forall i, j :: 0 <= i < j < |ps| ==> ps[i].id != ps[j].id
  }

  /** The ids of the calendar and of the pinboard do not overlap. */
  ghost predicate PlacementsDisjoint(s: State) {
    forall i, j :: 0 <= i < |s.appointments| && 0 <= j < |s.pinboardAppointments| ==>
      s.appointments[i].aptId != s.pinboardAppointments[j].aptId
  }
}
