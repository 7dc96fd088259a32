/**
 * A new surgical report built from a catalogue patient and surgery: the
 * patient's data and the surgery's data copied in, the ward readings
 * seeded, and everything the nurse fills in left blank. Both lookups must
 * succeed, otherwise no report is made.
 */
module ReportPrefill {
  import opened Wrappers
  import opened Strings
  import opened SurgicalReports
  import SurgicalCatalogue
  import VitalConstantsTable
  import SurgicalReportForm

  /** The patient record a report carries, read back from the report. */
  function PatientOf(r: SurgicalReport): MockPatient
  {
    MockPatient(r.patientId, r.patient.pacienteNombre, r.patient.pacienteDireccion,
      r.patient.pacienteNis, r.patient.pacienteTelefono, r.patient.pacienteFechaNacimiento,
      r.hospitalization.alergias, r.hospitalization.medicacionHabitual, r.hospitalization.ppcc,
      r.hospitalization.taS, r.hospitalization.taD, r.hospitalization.fc,
      r.hospitalization.enfermeraPlanta)
  }

  /**
   * The surgery record a report carries, read back from the report; the
   * report keeps no owner of the surgery apart from its own patient.
   */
  function SurgeryOf(r: SurgicalReport): MockSurgery
  {
    MockSurgery(r.surgeryId, r.patientId, r.preUrpa.intervencion, r.preUrpa.lateralidad,
      r.operatingRoom.cirujano, r.operatingRoom.anestesista, r.operatingRoom.tipoAnestesia,
      r.operatingRoom.fechaEntradaQuirofano, r.operatingRoom.fechaSalidaQuirofano,
      r.operatingRoom.enfermeraQuirofano, r.operatingRoom.medicacionQuirofano,
      r.urpa.anestesistaUrpa, r.preUrpa.enfermeraUrpa, r.preUrpa.medicacionPreUrpa,
      r.urpa.fechaEntradaUrpa, r.urpa.fechaSalidaUrpa)
  }

  /**
   * The report `handleSelectPatientSurgery` builds. Every patient field and
   * every surgery field is copied, so both records read back unchanged (the
   * surgery's owner is the report's patient); the URPA nurse is copied twice,
   * once as the final URPA nurse. No box is checked, the vital-sign table is
   * the ward seed, no medication is listed, and every text the nurse writes
   * is empty apart from the three the surgery supplies.
   */
  function BuildReport(patient: MockPatient, surgery: MockSurgery, patientId: string, surgeryId: string,
                       nowMillis: nat, isoNow: string): (r: SurgicalReport)
    ensures r.id == StampedId("report", nowMillis)
    ensures r.patientId == patientId && r.surgeryId == surgeryId
    ensures r.fechaCreacion == isoNow && r.fechaHoraInforme == isoNow
    ensures patient.id == patientId ==> PatientOf(r) == patient
    ensures surgery.id == surgeryId ==> SurgeryOf(r) == surgery.(patientId := patientId)
    ensures r.urpa.enfermeraUrpaFinal == surgery.enfermeraUrpa
    ensures r.checked == {}
    ensures r.constantesVitales == SurgicalCatalogue.MockVitalConstants
    ensures r.medicacionAdministrada == []
    ensures r.Text(MedicacionQuirofano) == surgery.medicacionQuirofano
    ensures r.Text(FechaEntradaUrpa) == surgery.fechaEntradaUrpa
    ensures r.Text(FechaSalidaUrpa) == surgery.fechaSalidaUrpa
    ensures forall f :: f != MedicacionQuirofano && f != FechaEntradaUrpa && f != FechaSalidaUrpa ==>
                        r.Text(f) == ""
  {
    SurgicalReport(StampedId("report", nowMillis), patientId, surgeryId, isoNow,
      PatientData(patient.nombre, patient.direccion, patient.nis, patient.telefono,
                  patient.fechaNacimiento),
      Hospitalization(patient.alergias, patient.medicacionHabitual, patient.ppcc,
                      patient.taS, patient.taD, patient.fc, patient.enfermeraPlanta),
      PreUrpa(surgery.intervencion, surgery.lateralidad, surgery.enfermeraUrpa,
              surgery.medicacionPreUrpa),
      {},
      OperatingRoom(surgery.cirujano, surgery.anestesista, surgery.tipoAnestesia,
                    surgery.fechaEntradaQuirofano, surgery.fechaSalidaQuirofano,
                    surgery.enfermeraQuirofano, surgery.medicacionQuirofano),
      "",
      SurgicalCatalogue.MockVitalConstants,
      Urpa(surgery.anestesistaUrpa, surgery.enfermeraUrpa, surgery.fechaEntradaUrpa,
           surgery.fechaSalidaUrpa),
      "",
      [],
      NoAdditionalFields,
      "", isoNow)
  }

  /**
   * Looks both ids up in the catalogue: a miss on either gives no report,
   * otherwise the report built from the two records found.
   */
  function PrefillReport(patientId: string, surgeryId: string, nowMillis: nat, isoNow: string)
    : (r: Option<SurgicalReport>)
    ensures r.None? <==> SurgicalCatalogue.GetPatientById(patientId).None?
                         || SurgicalCatalogue.GetSurgeryById(surgeryId).None?
    ensures r.Some? ==> && PatientOf(r.value) == SurgicalCatalogue.GetPatientById(patientId).value
                        && SurgeryOf(r.value)
                           == SurgicalCatalogue.GetSurgeryById(surgeryId).value.(patientId := patientId)
  {
    var patient := SurgicalCatalogue.GetPatientById(patientId);
    var surgery := SurgicalCatalogue.GetSurgeryById(surgeryId);
    if patient.None? || surgery.None? then None
    else Some(BuildReport(patient.value, surgery.value, patientId, surgeryId, nowMillis, isoNow))
  }

  /**
   * A patient and one of its surgeries, both found under their ids, always
   * yield a report, and that report carries the two records exactly.
   */
  lemma FoundPairPrefills(patient: MockPatient, surgery: MockSurgery, nowMillis: nat, isoNow: string)
    requires SurgicalCatalogue.GetPatientById(patient.id) == Some(patient)
    requires SurgicalCatalogue.GetSurgeryById(surgery.id) == Some(surgery)
    requires surgery.patientId == patient.id
    ensures var r := PrefillReport(patient.id, surgery.id, nowMillis, isoNow);
            r.Some? && PatientOf(r.value) == patient && SurgeryOf(r.value) == surgery
  {
  }

  /** The pair the picker emits for a catalogue entry yields the report of that patient and surgery. */
  lemma CataloguePairPrefills(i: nat, nowMillis: nat, isoNow: string)
    requires i < |SurgicalCatalogue.MockPatients|
    ensures var r := PrefillReport(SurgicalCatalogue.MockPatients[i].id,
                                   SurgicalCatalogue.MockSurgeries[i].id, nowMillis, isoNow);
            && r.Some?
            && PatientOf(r.value) == SurgicalCatalogue.MockPatients[i]
            && SurgeryOf(r.value) == SurgicalCatalogue.MockSurgeries[i]
  {
    SurgicalCatalogue.PatientFound(i);
    SurgicalCatalogue.SurgeryFound(i);
    SurgicalCatalogue.SurgeryOwner(i);
    FoundPairPrefills(SurgicalCatalogue.MockPatients[i], SurgicalCatalogue.MockSurgeries[i], nowMillis, isoNow);
  }

  /**
   * A prefilled report keeps the two ward readings it was seeded with through
   * any editing session.
   */
  lemma SeedReadingsSurviveEditing(r: SurgicalReport, es: seq<SurgicalReportForm.FormEvent>)
    requires r.constantesVitales == SurgicalCatalogue.MockVitalConstants
    ensures VitalConstantsTable.WardIds(SurgicalReportForm.ApplyAll(r, es).constantesVitales)
            == {"vc-001", "vc-002"}
  {
    VitalConstantsTable.SeedIsWellFormed();
    SurgicalReportForm.EditingKeepsIdentityAndWardRows(r, es);
  }
}
