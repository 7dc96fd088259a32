/**
 * The two-page surgical report editor: the record it starts from, the edits
 * its controls make, page navigation, and the two save buttons of page 2.
 * The clock and the PDF generator are outside the model: the time is a
 * parameter, and the generator's outcome is the argument of the step that
 * ends a save-and-print.
 */
module SurgicalReportForm {
  import opened Wrappers
  import opened Strings
  import opened SurgicalReports
  import VitalConstantsTable
  import MedicationSection

  /** The editor has two pages, numbered as the editor numbers them. */
  type PageNumber = p: int | 1 <= p <= 2 witness 1

  /**
   * The record a new report starts from: a `report-<millis>` id, no patient
   * or surgery, both timestamps at the current time, zero readings and nothing
   * else filled in.
   */
  function DefaultReport(nowMillis: nat, isoNow: string): (r: SurgicalReport)
    ensures r.id == StampedId("report", nowMillis)
    ensures r.patientId == "" && r.surgeryId == ""
    ensures r.fechaCreacion == isoNow && r.fechaHoraInforme == isoNow
    ensures r.patient == PatientData("", "", "", "", "")
    ensures r.hospitalization == Hospitalization("", "", "", 0.0, 0.0, 0.0, "")
    ensures r.preUrpa == PreUrpa("", "", "", "")
    ensures r.operatingRoom == OperatingRoom("", "", "", "", "", "", "")
    ensures r.urpa == Urpa("", "", "", "")
    ensures r.Erase() == r
    ensures r.checked == {} && r.constantesVitales == [] && r.medicacionAdministrada == []
    ensures forall f :: r.Text(f) == ""
  {
    SurgicalReport(StampedId("report", nowMillis), "", "", isoNow,
      PatientData("", "", "", "", ""),
      Hospitalization("", "", "", 0.0, 0.0, 0.0, ""),
      PreUrpa("", "", "", ""),
      {},
      OperatingRoom("", "", "", "", "", "", ""),
      "",
      [],
      Urpa("", "", "", ""),
      "",
      [],
      NoAdditionalFields,
      "", isoNow)
  }

  /**
   * What the editor's controls do to the record: a checklist box, a text
   * field, the vital-sign table and the medication table.
   */
  datatype FormEvent =
    | CheckboxChange(box: Checkbox, checked: bool)
    | FieldChange(field: TextField, text: string)
    | VitalsTable(vitals: VitalConstantsTable.TableEvent)
    | MedicationTable(medication: MedicationSection.MedicationEvent)

  /**
   * One control's change handler. Only the part the control owns changes;
   * whatever no control reaches (ids, timestamps, the copied patient and
   * surgery data) is kept.
   */
  function Apply(r: SurgicalReport, e: FormEvent): (n: SurgicalReport)
    ensures n.Erase() == r.Erase()
    ensures !e.CheckboxChange? ==> n.checked == r.checked
    ensures !e.FieldChange? ==> forall f :: n.Text(f) == r.Text(f)
    ensures !e.VitalsTable? ==> n.constantesVitales == r.constantesVitales
    ensures !e.MedicationTable? ==> n.medicacionAdministrada == r.medicacionAdministrada
  {
    match e
    case CheckboxChange(c, v) => r.SetChecked(c, v)
    case FieldChange(f, v) => r.SetText(f, v)
    case VitalsTable(t) => r.SetVitals(VitalConstantsTable.Step(r.constantesVitales, t))
    case MedicationTable(m) => r.SetMedication(MedicationSection.Step(r.medicacionAdministrada, m))
  }

  function ApplyAll(r: SurgicalReport, es: seq<FormEvent>): SurgicalReport
    decreases |es|
  {
    if es == [] then r else ApplyAll(Apply(r, es[0]), es[1..])
  }

  /**
   * However long the editing session, the report keeps its id, its patient,
   * its surgery, its creation time and all it copied from the catalogue, and
   * the ward readings it started with are all still in its vital-sign table.
   */
  lemma {:induction false} EditingKeepsIdentityAndWardRows(r: SurgicalReport, es: seq<FormEvent>)
    requires VitalConstantsTable.WardRowsApart(r.constantesVitales)
    ensures ApplyAll(r, es).Erase() == r.Erase()
    ensures var n := ApplyAll(r, es);
            n.id == r.id && n.patientId == r.patientId && n.surgeryId == r.surgeryId
            && n.patient == r.patient && n.fechaCreacion == r.fechaCreacion
    ensures VitalConstantsTable.WardRowsApart(ApplyAll(r, es).constantesVitales)
    ensures VitalConstantsTable.WardIds(ApplyAll(r, es).constantesVitales)
         == VitalConstantsTable.WardIds(r.constantesVitales)
    decreases |es|
  {
    if es != [] {
      var n := Apply(r, es[0]);
      if es[0].VitalsTable? {
        VitalConstantsTable.StepKeepsWardRows(r.constantesVitales, es[0].vitals);
      }
      EditingKeepsIdentityAndWardRows(n, es[1..]);
    }
  }

  /** The editor's state: the page shown, whether a PDF is being made, and the record. */
  class ReportEditor {
    var currentPage: PageNumber
    var generatingPDF: bool
    var formData: SurgicalReport

    /** Opens on page 1 with the record given, or with the default record. */
    constructor(initialData: Option<SurgicalReport>, nowMillis: nat, isoNow: string)
      ensures currentPage == 1 && !generatingPDF
      ensures formData == if initialData.Some? then initialData.value else DefaultReport(nowMillis, isoNow)
    {
      currentPage := 1;
      generatingPDF := false;
      formData := if initialData.Some? then initialData.value else DefaultReport(nowMillis, isoNow);
    }

    /** A new record handed in replaces the form; no record leaves it as it is. */
    method InitialDataChanged(initialData: Option<SurgicalReport>)
      modifies this
      ensures formData == if initialData.Some? then initialData.value else old(formData)
      ensures currentPage == old(currentPage) && generatingPDF == old(generatingPDF)
    {
      if initialData.Some? {
        formData := initialData.value;
      }
    }

    /** "Siguiente", shown on page 1: to page 2, the record untouched. */
    method Next()
      requires currentPage == 1
      modifies this
      ensures currentPage == 2
      ensures formData == old(formData) && generatingPDF == old(generatingPDF)
    {
      currentPage := 2;
    }

    /** "Anterior", shown on page 2: back to page 1, the record untouched. */
    method Previous()
      requires currentPage == 2
      modifies this
      ensures currentPage == 1
      ensures formData == old(formData) && generatingPDF == old(generatingPDF)
    {
      currentPage := 1;
    }

    /** A control changes the record; the page and the PDF flag stay, and so do the ward readings. */
    method Handle(e: FormEvent)
      modifies this
      ensures formData == Apply(old(formData), e)
      ensures currentPage == old(currentPage) && generatingPDF == old(generatingPDF)
      ensures VitalConstantsTable.WardRowsApart(old(formData).constantesVitales) ==>
                && VitalConstantsTable.WardRowsApart(formData.constantesVitales)
                && VitalConstantsTable.WardIds(formData.constantesVitales)
                   == VitalConstantsTable.WardIds(old(formData).constantesVitales)
    {
      if e.VitalsTable? && VitalConstantsTable.WardRowsApart(formData.constantesVitales) {
        VitalConstantsTable.StepKeepsWardRows(formData.constantesVitales, e.vitals);
      }
      formData := Apply(formData, e);
    }

    /**
     * "Guardar Informe": offered on page 2 and disabled while a PDF is being
     * made; it hands the record as it stands to the save callback.
     */
    method Save() returns (saved: Option<SurgicalReport>)
      ensures saved.Some? <==> currentPage == 2 && !generatingPDF
      ensures saved.Some? ==> saved.value == formData
    {
      if currentPage == 2 && !generatingPDF {
        saved := Some(formData);
      } else {
        saved := None;
      }
    }

    /**
     * "Guardar e Imprimir", first half: under the same conditions as "Guardar",
     * the flag goes up and the record is saved before any PDF is attempted; the
     * record returned is also the one the PDF is made from.
     */
    method StartSaveAndPrint() returns (saved: Option<SurgicalReport>)
      modifies this
      ensures saved.Some? <==> old(currentPage) == 2 && !old(generatingPDF)
      ensures saved.Some? ==> saved.value == formData && generatingPDF
      ensures saved.None? ==> generatingPDF == old(generatingPDF)
      ensures formData == old(formData) && currentPage == old(currentPage)
    {
      if currentPage == 2 && !generatingPDF {
        generatingPDF := true;
        saved := Some(formData);
      } else {
        saved := None;
      }
    }

    /**
     * "Guardar e Imprimir", second half: whatever the PDF step did, the flag
     * comes down; a failed PDF raises the alert that says the report was saved.
     */
    method FinishSaveAndPrint(pdfGenerated: bool) returns (alert: bool)
      modifies this
      ensures !generatingPDF
      ensures alert <==> !pdfGenerated
      ensures formData == old(formData) && currentPage == old(currentPage)
    {
      generatingPDF := false;
      alert := !pdfGenerated;
    }
  }

  /** While a save-and-print is under way, neither save button does anything. */
  method SaveAndPrintBlocksSaving(editor: ReportEditor) returns (again: Option<SurgicalReport>, plain: Option<SurgicalReport>)
    requires editor.currentPage == 2 && !editor.generatingPDF
    modifies editor
    ensures again.None? && plain.None?
  {
    var first := editor.StartSaveAndPrint();
    again := editor.StartSaveAndPrint();
    plain := editor.Save();
  }
}
