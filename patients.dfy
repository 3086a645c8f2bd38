/** Patients: the listing with its free-text search, the three writes guarded
    by the unique document (create, update, delete), and a patient's
    statistics over their sales, plans and installments. */
module Patients {
  import opened Common
  import opened Calendar
  import opened Seqs
  import opened Text
  import opened Schema
  import opened Plans
  import opened Receivables

  // ---------------------------------------------------------------------------
  // Lookups

  /** The unique document column. */
  function DocumentOf(p: Patient): string { p.document }

  /** With unique documents a document names at most one patient, so the
      lookup finds exactly that one. */
  lemma FindByDocumentUnique(ps: seq<Patient>, i: nat)
    requires UniqueDocuments(ps) && i < |ps|
    ensures FindBy(ps, DocumentOf, ps[i].document) == Some(i)
  {
  }

  /** `findPatientByDocument`. */
  function PatientByDocument(t: Tables, document: string): (r: Option<Patient>)
    ensures r.Some? ==> r.value in t.patients && r.value.document == document
    ensures r.None? <==> forall i :: 0 <= i < |t.patients| ==> t.patients[i].document != document
  {
    match FindBy(t.patients, DocumentOf, document)
    case None => None
    case Some(i) => Some(t.patients[i])
  }

  // ---------------------------------------------------------------------------
  // Listing

  /** The optional filters of the listing; empty strings count as absent. */
  datatype PatientFilters = PatientFilters(search: Option<string>, eps: Option<string>)

  /** A case-insensitive substring test (the database's `insensitive` mode),
      with ASCII case folding. */
  predicate ContainsInsensitive(field: string, search: string)
  {
    Contains(Lower(field), Lower(search))
  }

  /** The search text occurs in the full name, the document, the e-mail (when
      there is one) or the phone. */
  predicate SearchHits(search: string, p: Patient)
  {
    || ContainsInsensitive(p.fullName, search)
    || ContainsInsensitive(p.document, search)
    || (p.email.Some? && ContainsInsensitive(p.email.value, search))
    || ContainsInsensitive(p.phone, search)
  }

  predicate PatientMatches(f: PatientFilters, p: Patient)
  {
    && (Given(f.search) ==> SearchHits(f.search.value, p))
    && (Given(f.eps) ==> p.eps == Some(f.eps.value))
  }

  function PatientMatchesIn(f: PatientFilters): Patient -> bool
  {
    (p: Patient) => PatientMatches(f, p)
  }

  /** Patients newest first. */
  predicate PatientNewestFirst(a: Patient, b: Patient) { a.createdAt >= b.createdAt }

  function SaleOfPatient(id: Id): Sale -> bool
  {
    (s: Sale) => s.patientId == id
  }

  function PlanOfPatient(id: Id): PaymentPlan -> bool
  {
    (p: PaymentPlan) => p.patientId == id
  }

  /** A listed patient with the number of their sales and of their payment plans. */
  datatype PatientSummary = PatientSummary(patient: Patient, sales: nat, paymentPlans: nat)

  function PatientsOf(r: seq<PatientSummary>): (ps: seq<Patient>)
    ensures |ps| == |r| && forall k :: 0 <= k < |r| ==> ps[k] == r[k].patient
  {
    seq(|r|, k requires 0 <= k < |r| => r[k].patient)
  }

  /** The summaries of the patients `ps`, in the same order. */
  function Summaries(t: Tables, ps: seq<Patient>): (r: seq<PatientSummary>)
    ensures PatientsOf(r) == ps
    ensures forall k :: 0 <= k < |r| ==>
      r[k].sales == Count(t.sales, SaleOfPatient(ps[k].id))
      && r[k].paymentPlans == Count(t.plans, PlanOfPatient(ps[k].id))
  {
    var r := seq(|ps|, k requires 0 <= k < |ps| =>
      PatientSummary(ps[k], Count(t.sales, SaleOfPatient(ps[k].id)), Count(t.plans, PlanOfPatient(ps[k].id))));
    assert PatientsOf(r) == ps;
    r
  }

  /** `getPatients`: exactly the patients matching the search and the EPS,
      each as often as stored, newest first, each with their sale and plan
      counts. */
  function GetPatients(t: Tables, f: PatientFilters): (r: seq<PatientSummary>)
    ensures forall p :: p in PatientsOf(r) <==> p in t.patients && PatientMatches(f, p)
    ensures multiset(PatientsOf(r)) == multiset(Filter(t.patients, PatientMatchesIn(f)))
    ensures forall i, j :: 0 <= i < j < |r| ==> r[i].patient.createdAt >= r[j].patient.createdAt
    ensures forall k :: 0 <= k < |r| ==>
      r[k].sales == Count(t.sales, SaleOfPatient(r[k].patient.id))
      && r[k].paymentPlans == Count(t.plans, PlanOfPatient(r[k].patient.id))
  {
    assert TotalPreorder(PatientNewestFirst);
    Summaries(t, Select(t.patients, PatientMatchesIn(f), PatientNewestFirst))
  }

  /** The search ignores case: searching for a text or for its lower-case
      form keeps the same patients. */
  lemma SearchIgnoresCase(search: string, eps: Option<string>, p: Patient)
    ensures PatientMatches(PatientFilters(Some(search), eps), p)
        <==> PatientMatches(PatientFilters(Some(Lower(search)), eps), p)
  {
    LowerIdempotent(search);
  }

  /** Without filters every patient is listed. */
  lemma AllPatients(t: Tables)
    ensures multiset(PatientsOf(GetPatients(t, PatientFilters(None, None)))) == multiset(t.patients)
  {
    FilterAll(t.patients, PatientMatchesIn(PatientFilters(None, None)));
  }

  /** A patient's own document, name or phone always finds them. */
  lemma SearchFindsOwnFields(p: Patient, eps: Option<string>)
    requires Given(eps) ==> p.eps == Some(eps.value)
    ensures PatientMatches(PatientFilters(Some(p.document), eps), p)
    ensures PatientMatches(PatientFilters(Some(p.fullName), eps), p)
    ensures PatientMatches(PatientFilters(Some(p.phone), eps), p)
  {
    ContainsSelf(Lower(p.document));
    ContainsSelf(Lower(p.fullName));
    ContainsSelf(Lower(p.phone));
  }

  // ---------------------------------------------------------------------------
  // Creation

  /** What the caller supplies to register a patient. */
  datatype PatientData = PatientData(
    document: string, fullName: string, birthDate: Option<Instant>, phone: string,
    email: Option<string>, address: Option<string>, eps: Option<string>, notes: Option<string>)

  function DuplicateDocument(document: string): string
  {
    "Ya existe un paciente con el documento " + document
  }

  function NewPatient(data: PatientData, id: Id, now: Instant): Patient
  {
    Patient(id, data.document, data.fullName, data.birthDate, data.phone, data.email,
            data.address, data.eps, data.notes, now)
  }

  /** The tables with the new patient appended. */
  function WithPatient(t: Tables, data: PatientData, now: Instant): Tables
  {
    t.(patients := t.patients + [NewPatient(data, t.nextId, now)], nextId := t.nextId + 1)
  }

  /** `createPatient`: refused when any patient already holds the document;
      otherwise the patient is stored with the next id, created at `now`. */
  method CreatePatient(db: Db, data: PatientData, now: Instant) returns (r: Result<Patient>)
    requires db.Valid()
    modifies db`patients, db`nextId
    ensures db.Valid()
    ensures if FindBy(old(db.patients), DocumentOf, data.document).Some? then
        r == Err(DuplicateDocument(data.document)) && db.Snapshot() == old(db.Snapshot())
      else
        r == Ok(NewPatient(data, old(db.nextId), now)) && db.Snapshot() == WithPatient(old(db.Snapshot()), data, now)
  {
    var existing := FindBy(db.patients, DocumentOf, data.document);
    if existing.Some? {
      return Err(DuplicateDocument(data.document));
    }
    ghost var t0 := db.Snapshot();
    var patient := NewPatient(data, db.nextId, now);
    StorePatients(db, db.patients + [patient], db.nextId + 1);
    CreatePatientValid(t0, data, now);
    r := Ok(patient);
  }

  /** Writes the patients table and the id counter. */
  method StorePatients(db: Db, ps: seq<Patient>, next: nat)
    modifies db`patients, db`nextId
    ensures db.Snapshot() == old(db.Snapshot()).(patients := ps, nextId := next)
  {
    db.patients, db.nextId := ps, next;
  }

  /** A patient whose document nobody holds keeps the documents unique. */
  lemma AppendKeepsDocumentsUnique(ps: seq<Patient>, p: Patient)
    requires UniqueDocuments(ps)
    requires forall i :: 0 <= i < |ps| ==> ps[i].document != p.document
    ensures UniqueDocuments(ps + [p])
  {
  }

  /** Storing a patient whose document is new keeps the database valid. */
  lemma CreatePatientValid(t: Tables, data: PatientData, now: Instant)
    requires TablesValid(t) && FindBy(t.patients, DocumentOf, data.document).None?
    ensures TablesValid(WithPatient(t, data, now))
  {
    var p := NewPatient(data, t.nextId, now);
    IssuedAppendRow(t.patients, PatientKey, p, t.nextId, t.nextId + 1);
    IdsIssuedGrow(t, t.nextId + 1);
    AppendKeepsDocumentsUnique(t.patients, p);
    KeysAppend(t.patients, PatientKey, p);
  }

  /** Registering the same document twice succeeds only the first time. */
  lemma CreateTwice(t: Tables, data: PatientData, now: Instant)
    requires FindBy(t.patients, DocumentOf, data.document).None?
    ensures FindBy(WithPatient(t, data, now).patients, DocumentOf, data.document).Some?
  {
    var ps := WithPatient(t, data, now).patients;
    assert ps[|ps| - 1].document == data.document;
  }

  // ---------------------------------------------------------------------------
  // Update

  /** The fields an update supplies; an absent field is left as it is. */
  datatype PatientChanges = PatientChanges(
    document: Option<string>, fullName: Option<string>, birthDate: Option<Instant>,
    phone: Option<string>, email: Option<string>, address: Option<string>,
    eps: Option<string>, notes: Option<string>)

  function Or<T>(o: Option<T>, d: T): T
  {
    if o.Some? then o.value else d
  }

  /** A patient with the supplied fields written over theirs. */
  function Changed(p: Patient, c: PatientChanges): (q: Patient)
    ensures q.id == p.id && q.createdAt == p.createdAt
  {
    p.(document := Or(c.document, p.document), fullName := Or(c.fullName, p.fullName),
       birthDate := if c.birthDate.Some? then c.birthDate else p.birthDate,
       phone := Or(c.phone, p.phone),
       email := if c.email.Some? then c.email else p.email,
       address := if c.address.Some? then c.address else p.address,
       eps := if c.eps.Some? then c.eps else p.eps,
       notes := if c.notes.Some? then c.notes else p.notes)
  }

  /** Applying the same changes twice is applying them once. */
  lemma ChangedIdempotent(p: Patient, c: PatientChanges)
    ensures Changed(Changed(p, c), c) == Changed(p, c)
  {
  }

  /** Some other patient than `id` holds `document`. */
  predicate HeldByOther(ps: seq<Patient>, id: Id, document: string)
  {
    exists i :: 0 <= i < |ps| && ps[i].document == document && ps[i].id != id
  }

  /** Why `updatePatient` fails, if it does: a supplied (non-empty) document
      held by another patient; then an unknown id; then, for an empty
      document, which skips the service's own check, the database's unique
      constraint on the column. */
  function UpdateError(ps: seq<Patient>, id: Id, c: PatientChanges): (e: Option<string>)
    ensures e.None? <==>
      && id in Map(ps, PatientKey)
      && (c.document.Some? ==> !HeldByOther(ps, id, c.document.value))
  {
    if Given(c.document) && FindBy(ps, DocumentOf, c.document.value).Some?
       && ps[FindBy(ps, DocumentOf, c.document.value).value].id != id then
      Some(DuplicateDocument(c.document.value))
    else if Find(ps, PatientKey, id).None? then Some(RecordNotFound)
    else if c.document.Some? && HeldByOther(ps, id, c.document.value) then Some(UniqueViolation)
    else None
  }

  /** `updatePatient` on the patient at position `i`. */
  function WithChanges(t: Tables, i: nat, c: PatientChanges): Tables
    requires i < |t.patients|
  {
    t.(patients := t.patients[i := Changed(t.patients[i], c)])
  }

  /** `updatePatient`: the supplied fields are written over the patient's;
      a document held by another patient is refused. */
  method UpdatePatient(db: Db, id: Id, c: PatientChanges) returns (r: Result<Patient>)
    requires db.Valid()
    modifies db`patients, db`nextId
    ensures db.Valid()
    ensures var e := UpdateError(old(db.patients), id, c);
      if e.Some? then r == Err(e.value) && db.Snapshot() == old(db.Snapshot())
      else
        var i := Find(old(db.patients), PatientKey, id).value;
        r == Ok(Changed(old(db.patients)[i], c)) && db.Snapshot() == WithChanges(old(db.Snapshot()), i, c)
  {
    var e := UpdateError(db.patients, id, c);
    if e.Some? {
      return Err(e.value);
    }
    ghost var t0 := db.Snapshot();
    var i := Find(db.patients, PatientKey, id).value;
    var patient := Changed(db.patients[i], c);
    StorePatients(db, db.patients[i := patient], db.nextId);
    UpdatePatientValid(t0, id, c);
    r := Ok(patient);
  }

  /** An accepted update keeps the database valid: ids and references are
      untouched and no two patients end up sharing a document. */
  lemma UpdatePatientValid(t: Tables, id: Id, c: PatientChanges)
    requires TablesValid(t) && UpdateError(t.patients, id, c).None?
    ensures TablesValid(WithChanges(t, Find(t.patients, PatientKey, id).value, c))
  {
    var i := Find(t.patients, PatientKey, id).value;
    KeysUpdate(t.patients, PatientKey, i, Changed(t.patients[i], c));
    UpdateKeepsDocumentsUnique(t.patients, i, c);
  }

  /** Changing the patient at `i` to a document no other patient holds keeps
      the documents unique. */
  lemma UpdateKeepsDocumentsUnique(ps: seq<Patient>, i: nat, c: PatientChanges)
    requires UniqueDocuments(ps) && Ascending(Map(ps, PatientKey)) && i < |ps|
    requires c.document.Some? ==> !HeldByOther(ps, ps[i].id, c.document.value)
    ensures UniqueDocuments(ps[i := Changed(ps[i], c)])
  {
    var r := ps[i := Changed(ps[i], c)];
    forall a, b | 0 <= a < |r| && 0 <= b < |r| && a != b ensures r[a].document != r[b].document {
      if a == i || b == i {
        var o := if a == i then b else a;
        assert r[o] == ps[o];
        if c.document.Some? {
          assert ps[o].id != ps[i].id by {
            FindUnique(ps, PatientKey, o);
            FindUnique(ps, PatientKey, i);
          }
        }
      }
    }
  }

  /** Keeping one's own document, or supplying none, passes the document
      check: an update is refused for its document only when another patient
      holds it. */
  lemma UpdateOwnDocument(ps: seq<Patient>, i: nat, c: PatientChanges)
    requires Ascending(Map(ps, PatientKey)) && UniqueDocuments(ps) && i < |ps|
    requires c.document.None? || c.document == Some(ps[i].document)
    ensures UpdateError(ps, ps[i].id, c).None?
  {
    assert Map(ps, PatientKey)[i] == ps[i].id;
    if c.document.Some? {
      forall j | 0 <= j < |ps| && ps[j].document == ps[i].document ensures ps[j].id == ps[i].id {
        assert j == i;
      }
    }
  }

  /** A non-empty document held by another patient is refused with the
      service's own message. */
  lemma UpdateDuplicate(ps: seq<Patient>, id: Id, c: PatientChanges, j: nat)
    requires UniqueDocuments(ps) && j < |ps| && Given(c.document)
    requires ps[j].document == c.document.value && ps[j].id != id
    ensures UpdateError(ps, id, c) == Some(DuplicateDocument(c.document.value))
  {
    FindByDocumentUnique(ps, j);
  }

  // ---------------------------------------------------------------------------
  // Deletion

  const PatientNotFound: string := "Paciente no encontrado"
  const PatientInUse: string := "No se puede eliminar un paciente con ventas o planes de pago asociados"

  /** Why `deletePatient` fails, if it does. */
  function DeleteError(t: Tables, id: Id): (e: Option<string>)
    ensures e.None? <==>
      && id in Map(t.patients, PatientKey)
      && (forall k :: 0 <= k < |t.sales| ==> t.sales[k].patientId != id)
      && (forall k :: 0 <= k < |t.plans| ==> t.plans[k].patientId != id)
  {
    CountZero(t.sales, SaleOfPatient(id));
    CountZero(t.plans, PlanOfPatient(id));
    if Find(t.patients, PatientKey, id).None? then Some(PatientNotFound)
    else if Count(t.sales, SaleOfPatient(id)) > 0 || Count(t.plans, PlanOfPatient(id)) > 0 then Some(PatientInUse)
    else None
  }

  /** The tables without the patient at position `i`. */
  function Without(t: Tables, i: nat): Tables
    requires i < |t.patients|
  {
    t.(patients := t.patients[..i] + t.patients[i + 1..])
  }

  /** `deletePatient`: an unknown patient, or one with sales or payment plans,
      is refused; otherwise exactly that patient is removed. */
  method DeletePatient(db: Db, id: Id) returns (r: Result<Patient>)
    requires db.Valid()
    modifies db`patients, db`nextId
    ensures db.Valid()
    ensures var e := DeleteError(old(db.Snapshot()), id);
      if e.Some? then r == Err(e.value) && db.Snapshot() == old(db.Snapshot())
      else
        var i := Find(old(db.patients), PatientKey, id).value;
        r == Ok(old(db.patients)[i]) && db.Snapshot() == Without(old(db.Snapshot()), i)
  {
    var e := DeleteError(db.Snapshot(), id);
    if e.Some? {
      return Err(e.value);
    }
    ghost var t0 := db.Snapshot();
    var i := Find(db.patients, PatientKey, id).value;
    r := Ok(db.patients[i]);
    StorePatients(db, db.patients[..i] + db.patients[i + 1..], db.nextId);
    DeletePatientValid(t0, id);
  }

  /** Removing a patient nothing refers to keeps the database valid. */
  lemma DeletePatientValid(t: Tables, id: Id)
    requires TablesValid(t) && DeleteError(t, id).None?
    ensures TablesValid(Without(t, Find(t.patients, PatientKey, id).value))
  {
    var i := Find(t.patients, PatientKey, id).value;
    RemovePatientIssued(t, i);
    RemovePatientReferences(t, i);
    RemoveKeepsDocumentsUnique(t.patients, i);
  }

  /** Removing a patient keeps every table's ids issued. */
  lemma RemovePatientIssued(t: Tables, i: nat)
    requires IdsIssued(t) && i < |t.patients|
    ensures IdsIssued(Without(t, i))
  {
    KeysRemove(t.patients, PatientKey, i);
    IssuedRemove(Map(t.patients, PatientKey), t.nextId, i);
  }

  /** Removing a patient no sale and no plan names keeps every reference resolving. */
  lemma RemovePatientReferences(t: Tables, i: nat)
    requires References(t) && i < |t.patients|
    requires forall k :: 0 <= k < |t.sales| ==> t.sales[k].patientId != t.patients[i].id
    requires forall k :: 0 <= k < |t.plans| ==> t.plans[k].patientId != t.patients[i].id
    ensures References(Without(t, i))
  {
    var ps := Without(t, i).patients;
    forall k | 0 <= k < |t.sales| ensures t.sales[k].patientId in Map(ps, PatientKey) {
      RemoveKeepsKey(t.patients, PatientKey, i, t.sales[k].patientId);
    }
    forall k | 0 <= k < |t.plans| ensures t.plans[k].patientId in Map(ps, PatientKey) {
      RemoveKeepsKey(t.patients, PatientKey, i, t.plans[k].patientId);
    }
  }

  /** Removing one row keeps every other row's id. */
  lemma RemoveKeepsKey<T>(s: seq<T>, key: T -> Id, i: nat, x: Id)
    requires i < |s| && x in Map(s, key) && x != key(s[i])
    ensures x in Map(s[..i] + s[i + 1..], key)
  {
    var ks := Map(s, key);
    var j :| 0 <= j < |ks| && ks[j] == x;
    var r := s[..i] + s[i + 1..];
    if j < i {
      assert r[j] == s[j];
      assert Map(r, key)[j] == x;
    } else {
      assert j != i && r[j - 1] == s[j];
      assert Map(r, key)[j - 1] == x;
    }
  }

  /** Removing a patient keeps the documents unique. */
  lemma RemoveKeepsDocumentsUnique(ps: seq<Patient>, i: nat)
    requires UniqueDocuments(ps) && i < |ps|
    ensures UniqueDocuments(ps[..i] + ps[i + 1..])
  {
    var r := ps[..i] + ps[i + 1..];
    forall a, b | 0 <= a < |r| && 0 <= b < |r| && a != b ensures r[a].document != r[b].document {
      var a' := if a < i then a else a + 1;
      var b' := if b < i then b else b + 1;
      assert r[a] == ps[a'] && r[b] == ps[b'];
    }
  }

  /** A deleted patient is gone: no row with their id is left. */
  lemma DeleteRemoves(ps: seq<Patient>, id: Id)
    requires Ascending(Map(ps, PatientKey)) && id in Map(ps, PatientKey)
    ensures var i := Find(ps, PatientKey, id).value; id !in Map(ps[..i] + ps[i + 1..], PatientKey)
  {
    var i := Find(ps, PatientKey, id).value;
    var ks := Map(ps, PatientKey);
    KeysRemove(ps, PatientKey, i);
    forall j | 0 <= j < |ks| && j != i ensures ks[j] != id {
      assert ks[i] == id;
    }
  }

  // ---------------------------------------------------------------------------
  // Statistics

  /** The figures of `getPatientStats`. */
  datatype PatientStats = PatientStats(
    totalSales: nat, totalRevenue: int, activePlans: nat, totalOwed: int,
    overdueCount: nat, overdueAmount: int, lastVisit: Option<Instant>)

  function SaleAmount(s: Sale): int { s.amount }

  /** The latest date among the sales, or none for no sales: the first sale
      once sorted by date descending. */
  function LatestDate(sales: seq<Sale>): (r: Option<Instant>)
    ensures r.None? <==> sales == []
    ensures r.Some? ==> exists k :: 0 <= k < |sales| && sales[k].date == r.value
    ensures r.Some? ==> forall k :: 0 <= k < |sales| ==> sales[k].date <= r.value
  {
    if sales == [] then None
    else
      var last := sales[|sales| - 1];
      var rest := LatestDate(sales[..|sales| - 1]);
      assert forall k :: 0 <= k < |sales| - 1 ==> sales[..|sales| - 1][k] == sales[k];
      if rest.Some? && rest.value > last.date then rest else Some(last.date)
  }

  /** The installments of the plans `plans`, plan by plan: the `flatMap` over
      each plan's included installments. */
  function InstallmentsOf(t: Tables, plans: seq<PaymentPlan>): seq<Installment>
  {
    if plans == [] then []
    else InstallmentsOf(t, plans[..|plans| - 1]) + Filter(t.installments, OfPlan(plans[|plans| - 1].id))
  }

  /** An installment is gathered exactly when it is stored and belongs to one
      of the plans. */
  lemma {:induction false} InstallmentsOfMembers(t: Tables, plans: seq<PaymentPlan>, x: Installment)
    ensures x in InstallmentsOf(t, plans) <==> x in t.installments && x.planId in Map(plans, PlanKey)
    decreases |plans|
  {
    if plans != [] {
      var m := |plans| - 1;
      InstallmentsOfMembers(t, plans[..m], x);
      KeysAppend(plans[..m], PlanKey, plans[m]);
      assert plans == plans[..m] + [plans[m]];
    }
  }

  /** A patient's statistics, for a patient who exists. */
  function StatsOf(t: Tables, id: Id): (r: PatientStats)
    ensures r.totalSales == Count(t.sales, SaleOfPatient(id))
    ensures r.activePlans <= Count(t.plans, PlanOfPatient(id))
    ensures r.lastVisit.None? <==> r.totalSales == 0
    ensures r.lastVisit.Some? ==>
      && (exists k :: 0 <= k < |t.sales| && t.sales[k].patientId == id && t.sales[k].date == r.lastVisit.value)
      && (forall k :: 0 <= k < |t.sales| && t.sales[k].patientId == id ==> t.sales[k].date <= r.lastVisit.value)
  {
    var sales := Filter(t.sales, SaleOfPatient(id));
    var plans := Filter(t.plans, PlanOfPatient(id));
    var active := Filter(plans, IsActivePlan);
    var overdue := Filter(InstallmentsOf(t, plans), IsOverdue);
    LatestOfPatient(t.sales, id);
    PatientStats(|sales|, Sum(sales, SaleAmount), |active|, Sum(active, RemainingOf),
                 |overdue|, Sum(overdue, InstallmentAmountOf), LatestDate(sales))
  }

  /** `getPatientStats`: an unknown patient fails; otherwise the count and
      sum of their sales, their active plans and what those still owe, the
      overdue installments across all their plans, and the date of their
      latest sale. */
  function GetPatientStats(t: Tables, id: Id): (r: Result<PatientStats>)
    ensures r.Err? <==> id !in Map(t.patients, PatientKey)
    ensures r.Err? ==> r.error == PatientNotFound
    ensures r.Ok? ==> r.value == StatsOf(t, id)
  {
    if Find(t.patients, PatientKey, id).None? then Err(PatientNotFound) else Ok(StatsOf(t, id))
  }

  /** An active plan of the patient. */
  function ActivePlanOf(id: Id): PaymentPlan -> bool
  {
    (p: PaymentPlan) => p.patientId == id && p.status == Active
  }

  /** What a plan still owes when it is an active plan of the patient, and nothing otherwise. */
  function OwedBy(id: Id): PaymentPlan -> int
  {
    (p: PaymentPlan) => if p.patientId == id && p.status == Active then p.remainingAmount else 0
  }

  /** Plan `pid` is one of the patient's plans. */
  predicate OwnsPlan(plans: seq<PaymentPlan>, id: Id, pid: Id)
  {
    exists p :: p in plans && p.patientId == id && p.id == pid
  }

  /** An overdue installment of one of the patient's plans. */
  function OverdueOfPatient(plans: seq<PaymentPlan>, id: Id): Installment -> bool
  {
    (x: Installment) => x.status == Overdue && OwnsPlan(plans, id, x.planId)
  }

  /** The amount of an overdue installment of one of the patient's plans, and nothing otherwise. */
  function OverdueAmountOfPatient(plans: seq<PaymentPlan>, id: Id): Installment -> int
  {
    (x: Installment) => if x.status == Overdue && OwnsPlan(plans, id, x.planId) then x.amount else 0
  }

  /** An overdue installment of a plan whose id is listed. */
  function OverdueIn(ks: seq<Id>): Installment -> bool
  {
    (x: Installment) => x.status == Overdue && x.planId in ks
  }

  function OverdueAmountIn(ks: seq<Id>): Installment -> int
  {
    (x: Installment) => if x.status == Overdue && x.planId in ks then x.amount else 0
  }

  /** Plan ids strictly increase along the sequence. */
  predicate IdsAscending(s: seq<PaymentPlan>)
  {
    forall i, j :: 0 <= i < j < |s| ==> s[i].id < s[j].id
  }

  lemma AscendingKeys(s: seq<PaymentPlan>)
    ensures Ascending(Map(s, PlanKey)) <==> IdsAscending(s)
  {
    var ks := Map(s, PlanKey);
    assert forall i :: 0 <= i < |s| ==> ks[i] == s[i].id;
  }

  /** A plan placed before plans of larger ids keeps them ascending. */
  lemma ConsAscending(h: PaymentPlan, rest: seq<PaymentPlan>)
    requires IdsAscending(rest)
    requires forall x :: x in rest ==> h.id < x.id
    ensures IdsAscending([h] + rest)
  {
    var r := [h] + rest;
    forall i, j | 0 <= i < j < |r| ensures r[i].id < r[j].id {
      if i == 0 {
        assert r[j] == rest[j - 1];
      } else {
        assert r[i] == rest[i - 1] && r[j] == rest[j - 1];
      }
    }
  }

  /** Filtering plans with ascending ids leaves the ids ascending. */
  lemma {:induction false} FilterAscending(plans: seq<PaymentPlan>, p: PaymentPlan -> bool)
    requires IdsAscending(plans)
    ensures IdsAscending(Filter(plans, p))
  {
    if plans != [] {
      var tail := plans[1..];
      assert IdsAscending(tail) by {
        forall i, j | 0 <= i < j < |tail| ensures tail[i].id < tail[j].id {
          assert tail[i] == plans[i + 1] && tail[j] == plans[j + 1];
        }
      }
      FilterAscending(tail, p);
      var rest := Filter(tail, p);
      if p(plans[0]) {
        forall x | x in rest ensures plans[0].id < x.id {
          var j :| 0 <= j < |tail| && tail[j] == x;
          assert x == plans[j + 1];
        }
        ConsAscending(plans[0], rest);
      }
    }
  }

  /** Gathering the installments plan by plan, over plans with distinct ids,
      counts and sums each overdue installment of those plans exactly once. */
  lemma {:induction false} OverdueGathered(t: Tables, plans: seq<PaymentPlan>)
    requires IdsAscending(plans)
    ensures Count(InstallmentsOf(t, plans), IsOverdue) == Count(t.installments, OverdueIn(Map(plans, PlanKey)))
    ensures Sum(InstallmentsOf(t, plans), OverdueAmount) == Sum(t.installments, OverdueAmountIn(Map(plans, PlanKey)))
    decreases |plans|
  {
    var ks := Map(plans, PlanKey);
    if plans == [] {
      CountNone(t.installments, OverdueIn(ks));
      SumCongruent(t.installments, OverdueAmountIn(ks), (x: Installment) => 0);
      SumConstant(t.installments, (x: Installment) => false, (x: Installment) => 0, 0);
    } else {
      var m := |plans| - 1;
      var front := plans[..m];
      var last := plans[m];
      var fks := Map(front, PlanKey);
      assert IdsAscending(front) by {
        forall i, j | 0 <= i < j < |front| ensures front[i].id < front[j].id {
          assert front[i] == plans[i] && front[j] == plans[j];
        }
      }
      assert last.id !in fks by {
        forall i | 0 <= i < |fks| ensures fks[i] != last.id {
          assert fks[i] == plans[i].id;
        }
      }
      OverdueGathered(t, front);
      KeysAppend(front, PlanKey, last);
      assert plans == front + [last];
      var mine := Filter(t.installments, OfPlan(last.id));
      CountAppend(InstallmentsOf(t, front), mine, IsOverdue);
      SumAppend(InstallmentsOf(t, front), mine, OverdueAmount);
      OverdueCountStep(t, fks, last.id);
      OverdueSumStep(t, fks, last.id);
    }
  }

  /** Adding a plan id not yet listed adds the count of that plan's overdue installments. */
  lemma OverdueCountStep(t: Tables, fks: seq<Id>, pid: Id)
    requires pid !in fks
    ensures Count(t.installments, OverdueIn(fks + [pid]))
         == Count(t.installments, OverdueIn(fks)) + Count(Filter(t.installments, OfPlan(pid)), IsOverdue)
  {
    CountFilter(t.installments, OfPlan(pid), IsOverdue, OverdueOf(pid));
    CountSplit(t.installments, OverdueIn(fks + [pid]), OverdueIn(fks), OverdueOf(pid));
  }

  /** Adding a plan id not yet listed adds the amount of that plan's overdue installments. */
  lemma OverdueSumStep(t: Tables, fks: seq<Id>, pid: Id)
    requires pid !in fks
    ensures Sum(t.installments, OverdueAmountIn(fks + [pid]))
         == Sum(t.installments, OverdueAmountIn(fks)) + Sum(Filter(t.installments, OfPlan(pid)), OverdueAmount)
  {
    var own := (x: Installment) => if x.planId == pid then OverdueAmount(x) else 0;
    SumFilter(t.installments, OfPlan(pid), OverdueAmount, own);
    SumPlus(t.installments, OverdueAmountIn(fks), own, OverdueAmountIn(fks + [pid]));
  }

  /** The patient's plans' ids are exactly the plans the patient owns. */
  lemma OwnedIds(t: Tables, id: Id, pid: Id)
    ensures pid in Map(Filter(t.plans, PlanOfPatient(id)), PlanKey) <==> OwnsPlan(t.plans, id, pid)
  {
    var plans := Filter(t.plans, PlanOfPatient(id));
    if pid in Map(plans, PlanKey) {
      var i :| 0 <= i < |plans| && Map(plans, PlanKey)[i] == pid;
      assert plans[i] in plans;
    }
    if OwnsPlan(t.plans, id, pid) {
      var p :| p in t.plans && p.patientId == id && p.id == pid;
      assert p in plans;
      var i :| 0 <= i < |plans| && plans[i] == p;
      assert Map(plans, PlanKey)[i] == pid;
    }
  }

  /** The plan figures: the active plans are the patient's plans with status
      active, and what they owe is the sum of their remaining amounts. */
  lemma StatsPlans(t: Tables, id: Id)
    ensures StatsOf(t, id).activePlans == Count(t.plans, ActivePlanOf(id))
    ensures StatsOf(t, id).totalOwed == Sum(t.plans, OwedBy(id))
  {
    var plans := Filter(t.plans, PlanOfPatient(id));
    CountFilter(t.plans, PlanOfPatient(id), IsActivePlan, ActivePlanOf(id));
    SumFilter(plans, IsActivePlan, RemainingOf, ActiveRemaining);
    SumFilter(t.plans, PlanOfPatient(id), ActiveRemaining, OwedBy(id));
  }

  /** The overdue figures: every overdue installment of every plan of the
      patient is counted and summed once, provided plan ids are unique. */
  lemma StatsOverdue(t: Tables, id: Id)
    requires Ascending(Map(t.plans, PlanKey))
    ensures StatsOf(t, id).overdueCount == Count(t.installments, OverdueOfPatient(t.plans, id))
    ensures StatsOf(t, id).overdueAmount == Sum(t.installments, OverdueAmountOfPatient(t.plans, id))
  {
    var plans := Filter(t.plans, PlanOfPatient(id));
    var ks := Map(plans, PlanKey);
    var gathered := InstallmentsOf(t, plans);
    AscendingKeys(t.plans);
    FilterAscending(t.plans, PlanOfPatient(id));
    OverdueGathered(t, plans);
    SumFilter(gathered, IsOverdue, InstallmentAmountOf, OverdueAmount);
    forall x: Installment ensures (x.planId in ks <==> OwnsPlan(t.plans, id, x.planId)) {
      OwnedIds(t, id, x.planId);
    }
    CountCongruent(t.installments, OverdueIn(ks), OverdueOfPatient(t.plans, id));
    SumCongruent(t.installments, OverdueAmountIn(ks), OverdueAmountOfPatient(t.plans, id));
  }

  /** The latest date of a patient's sales is one of their sale dates and no
      sale of theirs is later. */
  lemma LatestOfPatient(sales: seq<Sale>, id: Id)
    ensures var r := LatestDate(Filter(sales, SaleOfPatient(id)));
      r.Some? ==>
        && (exists k :: 0 <= k < |sales| && sales[k].patientId == id && sales[k].date == r.value)
        && (forall k :: 0 <= k < |sales| && sales[k].patientId == id ==> sales[k].date <= r.value)
  {
    var f := Filter(sales, SaleOfPatient(id));
    var r := LatestDate(f);
    if r.Some? {
      var m :| 0 <= m < |f| && f[m].date == r.value;
      assert f[m] in f;
      var k :| 0 <= k < |sales| && sales[k] == f[m];
      forall k | 0 <= k < |sales| && sales[k].patientId == id ensures sales[k].date <= r.value {
        assert sales[k] in sales && SaleOfPatient(id)(sales[k]);
        var j :| 0 <= j < |f| && f[j] == sales[k];
      }
    }
  }

  /** A patient without sales or plans has all-zero statistics and no last visit. */
  lemma NewPatientStats(t: Tables, id: Id)
    requires id in Map(t.patients, PatientKey)
    requires forall k :: 0 <= k < |t.sales| ==> t.sales[k].patientId != id
    requires forall k :: 0 <= k < |t.plans| ==> t.plans[k].patientId != id
    ensures GetPatientStats(t, id) == Ok(PatientStats(0, 0, 0, 0, 0, 0, None))
  {
    CountZero(t.sales, SaleOfPatient(id));
    CountZero(t.plans, PlanOfPatient(id));
  }

  /** The revenue of a patient is the sum of their sale amounts over the whole
      sales table. */
  lemma StatsRevenue(t: Tables, id: Id)
    requires id in Map(t.patients, PatientKey)
    ensures GetPatientStats(t, id).value.totalRevenue == Sum(t.sales, RevenueFrom(id))
  {
    SumFilter(t.sales, SaleOfPatient(id), SaleAmount, RevenueFrom(id));
  }

  /** A sale's amount when it is the patient's, and nothing otherwise. */
  function RevenueFrom(id: Id): Sale -> int
  {
    (s: Sale) => if s.patientId == id then s.amount else 0
  }
}
