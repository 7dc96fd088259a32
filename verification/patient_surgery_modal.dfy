/**
 * The two-step picker that starts a surgical report: choose a catalogue
 * patient, then one of that patient's surgeries. Choosing a surgery emits the
 * pair of ids and asks to be closed; closing and going back both clear the
 * choice.
 */
module PatientSurgeryModal {
  import opened Wrappers
  import opened SurgicalReports
  import SurgicalCatalogue

  /** The pair of ids the picker hands to its `onSelect` callback. */
  datatype PatientSurgery = PatientSurgery(patientId: string, surgeryId: string)

  class PatientSurgerySelection {
    var selectedPatient: Option<MockPatient>
    var surgeries: seq<MockSurgery>

    /** The list shown is the chosen patient's surgeries, and nothing before a patient is chosen. */
    predicate Valid()
      reads this
    {
      if selectedPatient.None? then surgeries == []
      else surgeries == SurgicalCatalogue.GetSurgeriesByPatientId(selectedPatient.value.id)
    }

    /** Opens on the patient step. */
    constructor()
      ensures selectedPatient.None? && surgeries == []
      ensures Valid()
    {
      selectedPatient := None;
      surgeries := [];
    }

    /** A patient is chosen: the list becomes exactly that patient's surgeries. */
    method SelectPatient(patient: MockPatient)
      modifies this
      ensures selectedPatient == Some(patient)
      ensures forall s :: s in surgeries <==> s in SurgicalCatalogue.MockSurgeries && s.patientId == patient.id
      ensures Valid()
    {
      selectedPatient := Some(patient);
      surgeries := SurgicalCatalogue.GetSurgeriesByPatientId(patient.id);
    }

    /**
     * A surgery is chosen. With a patient chosen, the pair of ids goes out,
     * the picker asks to be closed and is back on the patient step; a surgery
     * taken from the list shown belongs to that patient and is found by id in
     * the catalogue. Without a patient nothing happens.
     */
    method SelectSurgery(surgery: MockSurgery) returns (selection: Option<PatientSurgery>, closeRequested: bool)
      requires Valid()
      modifies this
      ensures selection.Some? <==> old(selectedPatient).Some?
      ensures closeRequested <==> old(selectedPatient).Some?
      ensures selection.Some? ==> selection.value == PatientSurgery(old(selectedPatient).value.id, surgery.id)
      ensures selection.Some? && surgery in old(surgeries) ==>
                && surgery.patientId == selection.value.patientId
                && SurgicalCatalogue.GetSurgeryById(surgery.id).Some?
      ensures selection.Some? ==> selectedPatient.None? && surgeries == []
      ensures selection.None? ==> selectedPatient == old(selectedPatient) && surgeries == old(surgeries)
      ensures Valid()
    {
      if selectedPatient.Some? {
        selection := Some(PatientSurgery(selectedPatient.value.id, surgery.id));
        closeRequested := Close();
      } else {
        selection := None;
        closeRequested := false;
      }
    }

    /** "Cancelar": the choice is cleared and the picker asks to be closed. */
    method Close() returns (closeRequested: bool)
      modifies this
      ensures selectedPatient.None? && surgeries == []
      ensures closeRequested
      ensures Valid()
    {
      selectedPatient := None;
      surgeries := [];
      closeRequested := true;
    }

    /** "Volver a Pacientes": the choice is cleared and the picker stays open. */
    method Back()
      modifies this
      ensures selectedPatient.None? && surgeries == []
      ensures Valid()
    {
      selectedPatient := None;
      surgeries := [];
    }
  }

  /**
   * Choosing a catalogue patient shows that patient's one surgery, and
   * choosing it emits the patient's id with the surgery's id.
   */
  method PickFromCatalogue(picker: PatientSurgerySelection, i: nat) returns (selection: Option<PatientSurgery>)
    requires i < |SurgicalCatalogue.MockPatients|
    modifies picker
    ensures selection == Some(PatientSurgery(SurgicalCatalogue.MockPatients[i].id, SurgicalCatalogue.MockSurgeries[i].id))
  {
    picker.SelectPatient(SurgicalCatalogue.MockPatients[i]);
    SurgicalCatalogue.EachPatientHasOneSurgery(i);
    assert picker.surgeries == [SurgicalCatalogue.MockSurgeries[i]];
    var closed;
    selection, closed := picker.SelectSurgery(picker.surgeries[0]);
  }
}
