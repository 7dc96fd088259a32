/**
 * The surgical report and the records it is built from: the catalogue's
 * patients and surgeries, the rows of the vital-sign table and of the
 * administered-medication table. Numbers are JS numbers without NaN, so
 * `real`; the ids are strings.
 *
 * The editable parts of a report are named by two enumerations: the twelve
 * checklist boxes and the thirteen free-text fields the editor wires to its
 * field handler. Together with the two row lists they are all an editor
 * control can reach; `Erase()` blanks them, and every edit below keeps what
 * is left.
 */
module SurgicalReports {

  /** Where a vital-sign row was taken: on the ward or in the operating room. */
  datatype VitalOrigin = Planta | Quirofano

  datatype VitalConstant = VitalConstant(
    id: string, hora: string,
    tasSistolica: real, tadDiastolica: real, fc: real, satO2: real, eva: real,
    origen: VitalOrigin)

  datatype MedicationRow = MedicationRow(id: string, hora: string, medicacion: string, dosis: string)

  datatype MockPatient = MockPatient(
    id: string, nombre: string, direccion: string, nis: string, telefono: string,
    fechaNacimiento: string, alergias: string, medicacionHabitual: string, ppcc: string,
    taS: real, taD: real, fc: real, enfermeraPlanta: string)

  datatype MockSurgery = MockSurgery(
    id: string, patientId: string, intervencion: string, lateralidad: string,
    cirujano: string, anestesista: string, tipoAnestesia: string,
    fechaEntradaQuirofano: string, fechaSalidaQuirofano: string,
    enfermeraQuirofano: string, medicacionQuirofano: string,
    anestesistaUrpa: string, enfermeraUrpa: string, medicacionPreUrpa: string,
    fechaEntradaUrpa: string, fechaSalidaUrpa: string)

  /** The ids the row tables, the catalogues and the report store are keyed by. */
  function VitalId(v: VitalConstant): string { v.id }
  function MedicationId(m: MedicationRow): string { m.id }
  function PatientId(p: MockPatient): string { p.id }
  function SurgeryId(s: MockSurgery): string { s.id }
  function SurgeryPatientId(s: MockSurgery): string { s.patientId }

  /** The twelve editable checklist boxes of page 1. */
  datatype Checkbox =
    | RetiradaDispositivos | RetiradaDentadura | RasuradoZona
    | PruebasEcg | PruebasRx | PruebasAs | PruebasInfExterno
    | VerificacionCirujano | VerificacionAnestesista
    | Marcaje | PruebasCruzadas | Transfusion

  const AllCheckboxes: seq<Checkbox> := [
    RetiradaDispositivos, RetiradaDentadura, RasuradoZona,
    PruebasEcg, PruebasRx, PruebasAs, PruebasInfExterno,
    VerificacionCirujano, VerificacionAnestesista,
    Marcaje, PruebasCruzadas, Transfusion]

  /** The checklist has exactly twelve boxes, each listed once. */
  lemma ChecklistHasTwelveBoxes()
    ensures |AllCheckboxes| == 12
    ensures forall c :: c in AllCheckboxes
    ensures forall i, j :: 0 <= i < j < |AllCheckboxes| ==> AllCheckboxes[i] != AllCheckboxes[j]
  {
    forall c ensures c in AllCheckboxes {
      match c
      case RetiradaDispositivos => assert AllCheckboxes[0] == c;
      case RetiradaDentadura => assert AllCheckboxes[1] == c;
      case RasuradoZona => assert AllCheckboxes[2] == c;
      case PruebasEcg => assert AllCheckboxes[3] == c;
      case PruebasRx => assert AllCheckboxes[4] == c;
      case PruebasAs => assert AllCheckboxes[5] == c;
      case PruebasInfExterno => assert AllCheckboxes[6] == c;
      case VerificacionCirujano => assert AllCheckboxes[7] == c;
      case VerificacionAnestesista => assert AllCheckboxes[8] == c;
      case Marcaje => assert AllCheckboxes[9] == c;
      case PruebasCruzadas => assert AllCheckboxes[10] == c;
      case Transfusion => assert AllCheckboxes[11] == c;
    }
  }

  // ----- The sections of a report, grouped as the report's sections show them

  /** The patient's identification, copied from the catalogue. */
  datatype PatientData = PatientData(
    pacienteNombre: string, pacienteDireccion: string, pacienteNis: string,
    pacienteTelefono: string, pacienteFechaNacimiento: string)

  /** Hospitalisation data, copied from the catalogue. */
  datatype Hospitalization = Hospitalization(
    alergias: string, medicacionHabitual: string, ppcc: string,
    taS: real, taD: real, fc: real, enfermeraPlanta: string)

  /** What the operating room hands over before the recovery unit. */
  datatype PreUrpa = PreUrpa(
    intervencion: string, lateralidad: string, enfermeraUrpa: string, medicacionPreUrpa: string)

  /** The operating-room section; only its medication is editable. */
  datatype OperatingRoom = OperatingRoom(
    cirujano: string, anestesista: string, tipoAnestesia: string,
    fechaEntradaQuirofano: string, fechaSalidaQuirofano: string,
    enfermeraQuirofano: string, medicacionQuirofano: string)

  /** The recovery-unit section; its entry and exit times are editable. */
  datatype Urpa = Urpa(
    anestesistaUrpa: string, enfermeraUrpaFinal: string,
    fechaEntradaUrpa: string, fechaSalidaUrpa: string)

  /** The seven additional free-text fields of page 2. */
  datatype AdditionalField =
    | ViasVenosas | Vendaje | SondaVesical | Oxigenoterapia | Drenajes | Otros | Apositos

  datatype AdditionalFields = AdditionalFields(
    viasVenosas: string, vendaje: string, sondaVesical: string, oxigenoterapia: string,
    drenajes: string, otros: string, apositos: string)
  {
    function Get(a: AdditionalField): string
    {
      match a
      case ViasVenosas => viasVenosas
      case Vendaje => vendaje
      case SondaVesical => sondaVesical
      case Oxigenoterapia => oxigenoterapia
      case Drenajes => drenajes
      case Otros => otros
      case Apositos => apositos
    }

    /** Sets one field; the other six keep their text. */
    function Set(a: AdditionalField, v: string): (r: AdditionalFields)
      ensures forall o :: r.Get(o) == if o == a then v else Get(o)
    {
      match a
      case ViasVenosas => this.(viasVenosas := v)
      case Vendaje => this.(vendaje := v)
      case SondaVesical => this.(sondaVesical := v)
      case Oxigenoterapia => this.(oxigenoterapia := v)
      case Drenajes => this.(drenajes := v)
      case Otros => this.(otros := v)
      case Apositos => this.(apositos := v)
    }
  }

  const NoAdditionalFields := AdditionalFields("", "", "", "", "", "", "")

  /** The free-text fields the editor lets the nurse change. */
  datatype TextField =
    | MedicacionQuirofano | ObservacionesPagina1
    | FechaEntradaUrpa | FechaSalidaUrpa | OrdenesMedicas
    | Additional(field: AdditionalField)
    | Enfermera

  /**
   * A surgical report. The fields are those of the flat record, grouped by the
   * section of the report that shows them; `id`, `patientId`, `surgeryId` and the
   * two timestamps stay at the top. The twelve checklist booleans are held as
   * the set of boxes that are true.
   */
  datatype SurgicalReport = SurgicalReport(
    id: string, patientId: string, surgeryId: string, fechaCreacion: string,
    patient: PatientData,
    hospitalization: Hospitalization,
    preUrpa: PreUrpa,
    checked: set<Checkbox>,
    operatingRoom: OperatingRoom,
    observacionesPagina1: string,
    constantesVitales: seq<VitalConstant>,
    urpa: Urpa,
    ordenesMedicas: string,
    medicacionAdministrada: seq<MedicationRow>,
    additional: AdditionalFields,
    enfermera: string, fechaHoraInforme: string)
  {
    function Text(f: TextField): string
    {
      match f
      case MedicacionQuirofano => operatingRoom.medicacionQuirofano
      case ObservacionesPagina1 => observacionesPagina1
      case FechaEntradaUrpa => urpa.fechaEntradaUrpa
      case FechaSalidaUrpa => urpa.fechaSalidaUrpa
      case OrdenesMedicas => ordenesMedicas
      case Additional(a) => additional.Get(a)
      case Enfermera => enfermera
    }

    /**
     * The report with every editable part blanked: the boxes cleared, the
     * editable texts emptied and both row lists emptied. What remains is what
     * no editor control can change.
     */
    function Erase(): SurgicalReport
    {
      this.(checked := {},
            operatingRoom := operatingRoom.(medicacionQuirofano := ""),
            observacionesPagina1 := "",
            constantesVitales := [],
            urpa := urpa.(fechaEntradaUrpa := "", fechaSalidaUrpa := ""),
            ordenesMedicas := "",
            medicacionAdministrada := [],
            additional := NoAdditionalFields,
            enfermera := "")
    }

    /** `{ ...report, [box]: v }`: one box changes, nothing else does. */
    function SetChecked(c: Checkbox, v: bool): (r: SurgicalReport)
      ensures r.Erase() == Erase()
      ensures forall f :: r.Text(f) == Text(f)
      ensures r.constantesVitales == constantesVitales
      ensures r.medicacionAdministrada == medicacionAdministrada
      ensures c in r.checked <==> v
      ensures forall o :: o != c ==> (o in r.checked <==> o in checked)
    {
      this.(checked := if v then checked + {c} else checked - {c})
    }

    /** `{ ...report, [field]: v }` for an editable text: it changes, nothing else does. */
    function SetText(f: TextField, v: string): (r: SurgicalReport)
      ensures r.Erase() == Erase()
      ensures r.checked == checked
      ensures r.constantesVitales == constantesVitales
      ensures r.medicacionAdministrada == medicacionAdministrada
      ensures forall o :: r.Text(o) == if o == f then v else Text(o)
    {
      match f
      case MedicacionQuirofano => this.(operatingRoom := operatingRoom.(medicacionQuirofano := v))
      case ObservacionesPagina1 => this.(observacionesPagina1 := v)
      case FechaEntradaUrpa => this.(urpa := urpa.(fechaEntradaUrpa := v))
      case FechaSalidaUrpa => this.(urpa := urpa.(fechaSalidaUrpa := v))
      case OrdenesMedicas => this.(ordenesMedicas := v)
      case Additional(a) => this.(additional := additional.Set(a, v))
      case Enfermera => this.(enfermera := v)
    }

    /** `{ ...report, constantesVitales: rows }`: the vital-sign list is replaced. */
    function SetVitals(rows: seq<VitalConstant>): (r: SurgicalReport)
      ensures r.Erase() == Erase()
      ensures r.checked == checked && forall f :: r.Text(f) == Text(f)
      ensures r.medicacionAdministrada == medicacionAdministrada
      ensures r.constantesVitales == rows
    {
      this.(constantesVitales := rows)
    }

    /** `{ ...report, medicacionAdministrada: rows }`: the medication list is replaced. */
    function SetMedication(rows: seq<MedicationRow>): (r: SurgicalReport)
      ensures r.Erase() == Erase()
      ensures r.checked == checked && forall f :: r.Text(f) == Text(f)
      ensures r.constantesVitales == constantesVitales
      ensures r.medicacionAdministrada == rows
    {
      this.(medicacionAdministrada := rows)
    }
  }

  /** The id a report is stored under. */
  function ReportId(r: SurgicalReport): string { r.id }

  /**
   * The editable parts and the erased rest determine a report: two reports
   * that agree on `Erase()`, every box, every editable text and both row
   * lists are the same report.
   */
  lemma {:induction false} EditablePartsDetermine(a: SurgicalReport, b: SurgicalReport)
    requires a.Erase() == b.Erase()
    requires a.checked == b.checked
    requires forall f :: a.Text(f) == b.Text(f)
    requires a.constantesVitales == b.constantesVitales
    requires a.medicacionAdministrada == b.medicacionAdministrada
    ensures a == b
  {
    assert a.operatingRoom.medicacionQuirofano == b.operatingRoom.medicacionQuirofano by {
      assert a.Text(MedicacionQuirofano) == b.Text(MedicacionQuirofano);
    }
    assert a.urpa.fechaEntradaUrpa == b.urpa.fechaEntradaUrpa by {
      assert a.Text(FechaEntradaUrpa) == b.Text(FechaEntradaUrpa);
    }
    assert a.urpa.fechaSalidaUrpa == b.urpa.fechaSalidaUrpa by {
      assert a.Text(FechaSalidaUrpa) == b.Text(FechaSalidaUrpa);
    }
    assert a.observacionesPagina1 == b.observacionesPagina1 by {
      assert a.Text(ObservacionesPagina1) == b.Text(ObservacionesPagina1);
    }
    assert a.ordenesMedicas == b.ordenesMedicas by {
      assert a.Text(OrdenesMedicas) == b.Text(OrdenesMedicas);
    }
    assert a.enfermera == b.enfermera by {
      assert a.Text(Enfermera) == b.Text(Enfermera);
    }
    assert a.additional == b.additional by {
      assert a.Text(Additional(ViasVenosas)) == b.Text(Additional(ViasVenosas));
      assert a.Text(Additional(Vendaje)) == b.Text(Additional(Vendaje));
      assert a.Text(Additional(SondaVesical)) == b.Text(Additional(SondaVesical));
      assert a.Text(Additional(Oxigenoterapia)) == b.Text(Additional(Oxigenoterapia));
      assert a.Text(Additional(Drenajes)) == b.Text(Additional(Drenajes));
      assert a.Text(Additional(Otros)) == b.Text(Additional(Otros));
      assert a.Text(Additional(Apositos)) == b.Text(Additional(Apositos));
    }
  }
}
