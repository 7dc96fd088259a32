/**
 * The two-step picker that starts a short-stay evaluation: choose a
 * catalogue patient, then a nurse. Choosing the nurse emits the pair of ids
 * and asks to be closed; closing and going back both clear the choice.
 */
module PatientNurseModal {
  import opened Wrappers
  import EvaluationCatalogue

  /** The pair of ids the picker hands to its `onSelect` callback. */
  datatype PatientNurse = PatientNurse(patientId: string, nurseId: string)

  class PatientNurseSelection {
    var selectedPatient: Option<EvaluationCatalogue.MockPatientForEvaluation>

    /** Opens on the patient step. */
    constructor()
      ensures selectedPatient.None?
    {
      selectedPatient := None;
    }

    /** The heading names the step the picker is on. */
    function Title(): (t: string)
      reads this
      ensures selectedPatient.None? <==> t == "Seleccionar Paciente"
      ensures selectedPatient.Some? <==> t == "Seleccionar Enfermera/o"
    {
      if selectedPatient.None? then "Seleccionar Paciente" else "Seleccionar Enfermera/o"
    }

    /** A patient is chosen; the picker moves to the nurse step. */
    method SelectPatient(patient: EvaluationCatalogue.MockPatientForEvaluation)
      modifies this
      ensures selectedPatient == Some(patient)
    {
      selectedPatient := Some(patient);
    }

    /**
     * A nurse is chosen. With a patient chosen, the pair of ids goes out and
     * the picker asks to be closed, back on the patient step; without one
     * nothing happens.
     */
    method SelectNurse(nurse: EvaluationCatalogue.MockNurse) returns (selection: Option<PatientNurse>, closeRequested: bool)
      modifies this
      ensures selection.Some? <==> old(selectedPatient).Some?
      ensures closeRequested <==> old(selectedPatient).Some?
      ensures selection.Some? ==> selection.value == PatientNurse(old(selectedPatient).value.id, nurse.id)
      ensures selection.Some? ==> selectedPatient.None?
      ensures selection.None? ==> selectedPatient == old(selectedPatient)
    {
      if selectedPatient.Some? {
        selection := Some(PatientNurse(selectedPatient.value.id, nurse.id));
        closeRequested := Close();
      } else {
        selection := None;
        closeRequested := false;
      }
    }

    /** "Cancelar": the choice is cleared and the picker asks to be closed. */
    method Close() returns (closeRequested: bool)
      modifies this
      ensures selectedPatient.None? && closeRequested
    {
      selectedPatient := None;
      closeRequested := true;
    }

    /** "Volver": the choice is cleared and the picker stays open. */
    method Back()
      modifies this
      ensures selectedPatient.None?
    {
      selectedPatient := None;
    }
  }

  /** Choosing a catalogue patient and a catalogue nurse emits a pair both lookups resolve. */
  method PickFromCatalogue(picker: PatientNurseSelection, i: nat, j: nat) returns (selection: Option<PatientNurse>)
    requires i < |EvaluationCatalogue.MockPatients| && j < |EvaluationCatalogue.MockNurses|
    modifies picker
    ensures selection.Some?
    ensures EvaluationCatalogue.GetPatientById(selection.value.patientId) == Some(EvaluationCatalogue.MockPatients[i])
    ensures EvaluationCatalogue.GetNurseById(selection.value.nurseId) == Some(EvaluationCatalogue.MockNurses[j])
  {
    picker.SelectPatient(EvaluationCatalogue.MockPatients[i]);
    var closed;
    selection, closed := picker.SelectNurse(EvaluationCatalogue.MockNurses[j]);
    EvaluationCatalogue.LookupsFindEveryEntry();
  }
}
