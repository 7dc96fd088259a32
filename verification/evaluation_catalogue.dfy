/**
 * The fixed catalogue offered when a short-stay evaluation is started: the
 * patients (with their last recorded readings, kept as the text the catalogue
 * holds) and the nurses, each looked up by id with `find`.
 */
module EvaluationCatalogue {
  import opened Wrappers
  import KeyedLists

  datatype MockPatientForEvaluation = MockPatientForEvaluation(
    id: string, nombre: string, direccion: string, nis: string, telefono: string,
    fechaNacimiento: string, alergias: string, antecedentesPersonales: string,
    medicacionHabitual: string,
    // the last recorded readings
    temperatura: string, viaAnular: string, tasSistolica: string, tadDiastolica: string,
    fc: string, fr: string, satO2: string, aireAmb: string)

  datatype MockNurse = MockNurse(id: string, nombre: string, numeroColegiado: string)

  function EvaluationPatientId(p: MockPatientForEvaluation): string { p.id }
  function NurseId(n: MockNurse): string { n.id }

  const MockPatients: seq<MockPatientForEvaluation> := [
    MockPatientForEvaluation("pat-eval-juan", "Juan Pérez García",
      "Calle Portales 12, 2° A, Vitoria-Gasteiz", "100001", "945111222", "12/05/1970",
      "No conocidas", "Sin antecedentes relevantes.", "No toma medicación habitual",
      "36.5", "Oral", "120", "75", "70", "15", "98", "Aire ambiente"),
    MockPatientForEvaluation("pat-eval-1", "María García López",
      "Calle Mayor 45, 3º B, Vitoria-Gasteiz", "307535", "943991234", "15/08/1965",
      "Penicilina, Polen",
      "Hipertensión arterial controlada con medicación. Diabetes Mellitus tipo 2. Colecistectomía en 2018.",
      "Enalapril 10mg (1-0-0), Metformina 850mg (1-0-1), Atorvastatina 20mg (0-0-1)",
      "36.5", "Oral", "135", "85", "78", "16", "98", "Aire ambiente"),
    MockPatientForEvaluation("pat-eval-2", "Juan Martínez Rodríguez",
      "Avenida de los Fueros 23, 1º A, Vitoria-Gasteiz", "412789", "945123456", "22/03/1978",
      "No conocidas",
      "Fumador activo (10 cigarrillos/día). Apendicectomía en la infancia. Sin otras patologías relevantes.",
      "No toma medicación habitual",
      "36.7", "Oral", "128", "82", "72", "14", "97", "Aire ambiente"),
    MockPatientForEvaluation("pat-eval-3", "Carmen Fernández Sánchez",
      "Plaza del Machete 8, 4º D, Vitoria-Gasteiz", "523456", "943887766", "10/11/1982",
      "Látex, AINEs", "Asma bronquial. Migraña crónica. Cesárea en 2015.",
      "Salbutamol inhalador (a demanda), Montelukast 10mg (0-0-1), Topiramate 50mg (1-0-1)",
      "36.3", "Oral", "118", "75", "68", "15", "99", "Aire ambiente"),
    MockPatientForEvaluation("pat-eval-4", "Pedro Gómez Álvarez",
      "Calle San Prudencio 67, Bajo, Vitoria-Gasteiz", "634521", "945998877", "05/06/1955",
      "Contraste yodado",
      "Cardiopatía isquémica. Stent coronario en 2020. Dislipemia. Hernia inguinal bilateral operada.",
      "AAS 100mg (1-0-0), Clopidogrel 75mg (1-0-0), Atorvastatina 40mg (0-0-1), Bisoprolol 5mg (1-0-0), Ramipril 5mg (1-0-0)",
      "36.8", "Oral", "142", "88", "65", "16", "96", "Aire ambiente")
  ]

  const MockNurses: seq<MockNurse> := [
    MockNurse("nurse-1", "Miren Sánchez", "12345"),
    MockNurse("nurse-2", "Ana Pérez García", "23456"),
    MockNurse("nurse-3", "Luis Fernández", "34567")
  ]

  /** The patient with that id, or nothing when the catalogue has none. */
  function GetPatientById(id: string): (r: Option<MockPatientForEvaluation>)
    ensures r.Some? ==> r.value.id == id && r.value in MockPatients
    ensures r.None? <==> forall i :: 0 <= i < |MockPatients| ==> MockPatients[i].id != id
  {
    KeyedLists.Find(MockPatients, EvaluationPatientId, id)
  }

  /** The nurse with that id, or nothing when the catalogue has none. */
  function GetNurseById(id: string): (r: Option<MockNurse>)
    ensures r.Some? ==> r.value.id == id && r.value in MockNurses
    ensures r.None? <==> forall i :: 0 <= i < |MockNurses| ==> MockNurses[i].id != id
  {
    KeyedLists.Find(MockNurses, NurseId, id)
  }

  /** No two catalogue patients share an id, and no two nurses do. */
  lemma CatalogueIdsUnique()
    ensures forall i, j :: 0 <= i < j < |MockPatients| ==> MockPatients[i].id != MockPatients[j].id
    ensures forall i, j :: 0 <= i < j < |MockNurses| ==> MockNurses[i].id != MockNurses[j].id
  {
    forall i, j | 0 <= i < j < |MockPatients|
      ensures MockPatients[i].id != MockPatients[j].id
    {
      assert MockPatients[i].id[9] != MockPatients[j].id[9];
    }
    forall i, j | 0 <= i < j < |MockNurses|
      ensures MockNurses[i].id != MockNurses[j].id
    {
      assert MockNurses[i].id[6] != MockNurses[j].id[6];
    }
  }

  /**
   * With unique ids, the lookups are exact: every catalogue entry is found
   * under its own id, and is the only thing found there.
   */
  lemma LookupsFindEveryEntry()
    ensures forall i :: 0 <= i < |MockPatients| ==>
              GetPatientById(MockPatients[i].id) == Some(MockPatients[i])
    ensures forall i :: 0 <= i < |MockNurses| ==>
              GetNurseById(MockNurses[i].id) == Some(MockNurses[i])
  {
    CatalogueIdsUnique();
    forall i | 0 <= i < |MockPatients|
      ensures GetPatientById(MockPatients[i].id) == Some(MockPatients[i])
    {
      var k := KeyedLists.FindIndex(MockPatients, EvaluationPatientId, MockPatients[i].id);
      assert k == i;
    }
    forall i | 0 <= i < |MockNurses|
      ensures GetNurseById(MockNurses[i].id) == Some(MockNurses[i])
    {
      var k := KeyedLists.FindIndex(MockNurses, NurseId, MockNurses[i].id);
      assert k == i;
    }
  }
}
