/**
 * The fixed catalogue behind the surgical reports: the patients, their
 * surgeries and the two ward readings every new report starts with, and the
 * three lookups over it (`find` by id, and `filter` by patient).
 */
module SurgicalCatalogue {
  import opened Wrappers
  import opened SurgicalReports
  import KeyedLists

  const MockPatients: seq<MockPatient> := [
    MockPatient("patient-juan", "Pérez García, Juan", "Calle Portales 12, 2° A, Madrid",
      "100001", "912111222", "1970-05-12", "Sin alergias conocidas",
      "No toma medicación habitual", "Sin antecedentes relevantes",
      120.0, 75.0, 70.0, "Miren Sánchez"),
    MockPatient("patient-001", "García López, María", "Calle Mayor 45, 3°B, Madrid",
      "280654789123", "912345678", "1965-03-15", "Penicilina, Contraste yodado",
      "Enalapril 10mg (1-0-0), Atorvastatina 20mg (0-0-1), Omeprazol 20mg (1-0-0)",
      "HTA, Dislipemia",
      135.0, 85.0, 78.0, "Ana Martínez Ruiz"),
    MockPatient("patient-002", "Rodríguez Sánchez, Juan Carlos",
      "Avenida de la Constitución 128, Barcelona",
      "080987654321", "934567890", "1958-11-22", "Sin alergias conocidas",
      "Metformina 850mg (1-0-1), Bisoprolol 5mg (1-0-0), AAS 100mg (0-0-1)",
      "DM tipo 2, Cardiopatía isquémica",
      128.0, 78.0, 68.0, "Carmen González Pérez"),
    MockPatient("patient-003", "Fernández Muñoz, Isabel", "Calle del Prado 67, 1°A, Valencia",
      "460123456789", "963456789", "1972-07-08", "Látex",
      "Levotiroxina 75mcg (1-0-0), Paracetamol 1g si dolor",
      "Hipotiroidismo",
      118.0, 72.0, 72.0, "Laura Jiménez Torres"),
    MockPatient("patient-004", "Martín Hernández, Pedro", "Plaza de España 12, 4°C, Sevilla",
      "410567891234", "954123456", "1980-01-30", "Sin alergias conocidas",
      "Ibuprofeno 600mg si dolor",
      "Sin antecedentes relevantes",
      122.0, 76.0, 70.0, "Marta Rodríguez Silva")
  ]

  const MockSurgeries: seq<MockSurgery> := [
    MockSurgery("surgery-juan", "patient-juan", "Herniorrafia umbilical", "No aplica",
      "Dr. Antonio López Ruiz", "Dra. María González Torres", "General balanceada",
      "2026-02-22T08:00", "2026-02-22T09:30", "Beatriz Sánchez López",
      "Propofol 150mg, Fentanilo 100mcg, Paracetamol 1g IV",
      "Dra. María González Torres", "Miren Sánchez", "Metoclopramida 10mg IV",
      "2026-02-22T09:30", "2026-02-22T11:30"),
    MockSurgery("surgery-001", "patient-001", "Colecistectomía laparoscópica", "No aplica",
      "Dr. Ramón Pérez Castillo", "Dra. Elena Moreno Díaz", "General balanceada",
      "2026-02-22T08:30", "2026-02-22T10:15", "Beatriz Sánchez López",
      "Propofol 200mg, Fentanilo 100mcg, Rocuronio 50mg, Paracetamol 1g IV",
      "Dra. Elena Moreno Díaz", "Cristina Fernández Ruiz", "Metoclopramida 10mg IV",
      "2026-02-22T10:15", "2026-02-22T12:30"),
    MockSurgery("surgery-002", "patient-002", "Hernioplastia inguinal derecha", "Derecha",
      "Dr. Carlos Jiménez Martín", "Dr. Miguel Ángel Torres Vega", "Raquídea",
      "2026-02-22T09:00", "2026-02-22T10:30", "Sara Martínez Gómez",
      "Bupivacaína hiperbara 15mg intratecal, Metamizol 2g IV",
      "Dr. Miguel Ángel Torres Vega", "Patricia López Muñoz", "Ondansetrón 4mg IV",
      "2026-02-22T10:30", "2026-02-22T13:00"),
    MockSurgery("surgery-003", "patient-003", "Tiroidectomía total", "Bilateral",
      "Dra. Lucía Romero Santos", "Dr. Javier Ruiz Hernández", "General balanceada",
      "2026-02-22T10:45", "2026-02-22T13:00", "María José García Díaz",
      "Propofol 180mg, Remifentanilo perfusión, Rocuronio 40mg, Dexametasona 8mg IV",
      "Dr. Javier Ruiz Hernández", "Isabel Sánchez Moreno",
      "Tramadol 100mg IV, Dexketoprofeno 50mg IV",
      "2026-02-22T13:00", "2026-02-22T15:30"),
    MockSurgery("surgery-004", "patient-004", "Artroscopia de rodilla izquierda - Meniscectomía",
      "Izquierda",
      "Dr. Alberto Navarro Prieto", "Dra. Carmen Silva Ortega", "Raquídea + sedación",
      "2026-02-22T11:30", "2026-02-22T12:45", "Elena Morales Pérez",
      "Bupivacaína hiperbara 12mg intratecal, Midazolam 2mg IV, Paracetamol 1g IV",
      "Dra. Carmen Silva Ortega", "Raquel Díaz Fernández", "Ketorolaco 30mg IM",
      "2026-02-22T12:45", "2026-02-22T14:30")
  ]

  /** The ward readings copied into every prefilled report. */
  const MockVitalConstants: seq<VitalConstant> := [
    VitalConstant("vc-001", "07:00", 130.0, 82.0, 76.0, 97.0, 2.0, Planta),
    VitalConstant("vc-002", "08:00", 135.0, 85.0, 78.0, 98.0, 1.0, Planta)
  ]

  /** The first patient with that id, or nothing. */
  function GetPatientById(id: string): (r: Option<MockPatient>)
    ensures r.Some? ==> r.value.id == id && r.value in MockPatients
    ensures r.None? <==> forall i :: 0 <= i < |MockPatients| ==> MockPatients[i].id != id
    ensures r.Some? ==> var i := KeyedLists.FindIndex(MockPatients, PatientId, id);
                        KeyedLists.FirstWithKey(MockPatients, PatientId, id, i) && r.value == MockPatients[i]
  {
    KeyedLists.Find(MockPatients, PatientId, id)
  }

  /** The first surgery with that id, or nothing. */
  function GetSurgeryById(id: string): (r: Option<MockSurgery>)
    ensures r.Some? ==> r.value.id == id && r.value in MockSurgeries
    ensures r.None? <==> forall i :: 0 <= i < |MockSurgeries| ==> MockSurgeries[i].id != id
    ensures r.Some? ==> var i := KeyedLists.FindIndex(MockSurgeries, SurgeryId, id);
                        KeyedLists.FirstWithKey(MockSurgeries, SurgeryId, id, i) && r.value == MockSurgeries[i]
  {
    KeyedLists.Find(MockSurgeries, SurgeryId, id)
  }

  /** The surgeries of one patient, in catalogue order. */
  function GetSurgeriesByPatientId(patientId: string): (r: seq<MockSurgery>)
    ensures forall s :: s in r <==> s in MockSurgeries && s.patientId == patientId
  {
    KeyedLists.Filter(MockSurgeries, (s: MockSurgery) => s.patientId == patientId)
  }

  /** No two catalogue patients share an id. */
  lemma PatientIdsUnique()
    ensures forall i, j :: 0 <= i < j < |MockPatients| ==> MockPatients[i].id != MockPatients[j].id
  {
    forall i, j | 0 <= i < j < |MockPatients|
      ensures MockPatients[i].id != MockPatients[j].id
    {
      assert MockPatients[i].id[8] != MockPatients[j].id[8]
          || MockPatients[i].id[10] != MockPatients[j].id[10];
    }
  }

  /** No two catalogue surgeries share an id. */
  lemma SurgeryIdsUnique()
    ensures forall i, j :: 0 <= i < j < |MockSurgeries| ==> MockSurgeries[i].id != MockSurgeries[j].id
  {
    forall i, j | 0 <= i < j < |MockSurgeries|
      ensures MockSurgeries[i].id != MockSurgeries[j].id
    {
      assert MockSurgeries[i].id[8] != MockSurgeries[j].id[8]
          || MockSurgeries[i].id[10] != MockSurgeries[j].id[10];
    }
  }

  /** With unique ids, every patient is found under its own id. */
  lemma PatientFound(i: nat)
    requires i < |MockPatients|
    ensures GetPatientById(MockPatients[i].id) == Some(MockPatients[i])
  {
    PatientIdsUnique();
    var k := KeyedLists.FindIndex(MockPatients, PatientId, MockPatients[i].id);
    assert k == i;
  }

  /** With unique ids, every surgery is found under its own id. */
  lemma SurgeryFound(i: nat)
    requires i < |MockSurgeries|
    ensures GetSurgeryById(MockSurgeries[i].id) == Some(MockSurgeries[i])
  {
    SurgeryIdsUnique();
    var k := KeyedLists.FindIndex(MockSurgeries, SurgeryId, MockSurgeries[i].id);
    assert k == i;
  }

  /** Each catalogue patient has exactly one surgery, the one at the same position. */
  lemma EachPatientHasOneSurgery(i: nat)
    requires i < |MockPatients|
    ensures GetSurgeriesByPatientId(MockPatients[i].id) == [MockSurgeries[i]]
  {
    PatientIdsUnique();
    assert forall k :: 0 <= k < |MockSurgeries| ==> MockSurgeries[k].patientId == MockPatients[k].id;
    KeyedLists.FilterUnique(MockSurgeries,
      (s: MockSurgery) => s.patientId == MockPatients[i].id, i);
  }

  /** The surgery at a position belongs to the patient at the same position. */
  lemma SurgeryOwner(i: nat)
    requires i < |MockPatients|
    ensures i < |MockSurgeries| && MockSurgeries[i].patientId == MockPatients[i].id
  {
  }

  /** Every surgery names a patient the catalogue holds. */
  lemma SurgeriesReferToPatients()
    ensures forall s :: s in MockSurgeries ==> GetPatientById(s.patientId).Some?
  {
    forall s | s in MockSurgeries
      ensures GetPatientById(s.patientId).Some?
    {
      var k :| 0 <= k < |MockSurgeries| && MockSurgeries[k] == s;
      assert MockPatients[k].id == s.patientId;
    }
  }

  /** The ward seed readings are all ward readings, with distinct ids. */
  lemma WardSeedIsPlanta()
    ensures forall v :: v in MockVitalConstants ==> v.origen == Planta
    ensures MockVitalConstants[0].id != MockVitalConstants[1].id
  {
    assert MockVitalConstants[0].id[5] != MockVitalConstants[1].id[5];
  }
}
