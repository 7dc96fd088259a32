/**
 * The application shell: which view is shown, which picker or form is open,
 * the record being edited, and the two stored lists. Each handler is a
 * method that changes the fields it sets and states that the rest stay.
 */
module ClinicalApp {
  import opened Wrappers
  import opened Evaluations
  import opened SurgicalReports
  import RecordStore
  import ReportPrefill
  import KeyedLists

  /** The three screens: the main menu and the two record lists. */
  datatype AppView = Menu | EvaluationsView | SurgicalReportsView

  class App {
    var currentView: AppView
    // evaluations
    var evaluations: seq<NursingEvaluation>
    var isModalOpen: bool
    var isPatientNurseModalOpen: bool
    var isFormVisible: bool
    var selectedEvaluationType: Option<EvaluationType>
    var editingEvaluation: Option<NursingEvaluation>
    var preloadedPatientId: Option<string>
    var preloadedNurseId: Option<string>
    // surgical reports
    var surgicalReports: seq<SurgicalReport>
    var isPatientModalOpen: bool
    var isSurgicalFormVisible: bool
    var editingSurgicalReport: Option<SurgicalReport>

    /** The evaluation side of the state is as it was. */
    twostate predicate EvaluationSideKept()
      reads this
    {
      && evaluations == old(evaluations)
      && isModalOpen == old(isModalOpen)
      && isPatientNurseModalOpen == old(isPatientNurseModalOpen)
      && isFormVisible == old(isFormVisible)
      && selectedEvaluationType == old(selectedEvaluationType)
      && editingEvaluation == old(editingEvaluation)
      && preloadedPatientId == old(preloadedPatientId)
      && preloadedNurseId == old(preloadedNurseId)
    }

    /** Neither picker of the evaluation side has opened or closed. */
    twostate predicate PickersKept()
      reads this
    {
      isModalOpen == old(isModalOpen) && isPatientNurseModalOpen == old(isPatientNurseModalOpen)
    }

    /** The patient and nurse ids preloaded for the short-stay form are as they were. */
    twostate predicate PreloadedKept()
      reads this
    {
      preloadedPatientId == old(preloadedPatientId) && preloadedNurseId == old(preloadedNurseId)
    }

    /** The surgical-report side of the state is as it was. */
    twostate predicate ReportSideKept()
      reads this
    {
      && surgicalReports == old(surgicalReports)
      && isPatientModalOpen == old(isPatientModalOpen)
      && isSurgicalFormVisible == old(isSurgicalFormVisible)
      && editingSurgicalReport == old(editingSurgicalReport)
    }

    /** Starts on the menu with both lists empty and nothing open. */
    constructor()
      ensures currentView == Menu
      ensures evaluations == [] && surgicalReports == []
      ensures !isModalOpen && !isPatientNurseModalOpen && !isFormVisible
      ensures selectedEvaluationType.None? && editingEvaluation.None?
      ensures preloadedPatientId.None? && preloadedNurseId.None?
      ensures !isPatientModalOpen && !isSurgicalFormVisible && editingSurgicalReport.None?
    {
      currentView := Menu;
      evaluations := [];
      isModalOpen := false;
      isPatientNurseModalOpen := false;
      isFormVisible := false;
      selectedEvaluationType := None;
      editingEvaluation := None;
      preloadedPatientId := None;
      preloadedNurseId := None;
      surgicalReports := [];
      isPatientModalOpen := false;
      isSurgicalFormVisible := false;
      editingSurgicalReport := None;
    }

    /** The menu buttons and the back buttons switch the view and nothing else. */
    method ShowView(v: AppView)
      modifies this
      ensures currentView == v
      ensures EvaluationSideKept() && ReportSideKept()
    {
      currentView := v;
    }

    // ----- Evaluations

    /** "Nueva Evaluación" opens the type picker. */
    method NewEvaluation()
      modifies this
      ensures isModalOpen
      ensures currentView == old(currentView) && ReportSideKept()
      ensures evaluations == old(evaluations) && isFormVisible == old(isFormVisible)
      ensures editingEvaluation == old(editingEvaluation)
      ensures isPatientNurseModalOpen == old(isPatientNurseModalOpen)
      ensures selectedEvaluationType == old(selectedEvaluationType) && PreloadedKept()
    {
      isModalOpen := true;
    }

    /** The type picker's close button. */
    method CloseTypeModal()
      modifies this
      ensures !isModalOpen
      ensures currentView == old(currentView) && ReportSideKept()
      ensures evaluations == old(evaluations) && isFormVisible == old(isFormVisible)
      ensures editingEvaluation == old(editingEvaluation)
      ensures isPatientNurseModalOpen == old(isPatientNurseModalOpen)
      ensures selectedEvaluationType == old(selectedEvaluationType) && PreloadedKept()
    {
      isModalOpen := false;
    }

    /**
     * A type is chosen: the type picker closes and the type is remembered.
     * The short-stay type goes on to the patient and nurse picker and does not
     * show the form yet; the other type shows the form with nothing being edited.
     */
    method SelectEvaluationType(t: EvaluationType)
      modifies this
      ensures selectedEvaluationType == Some(t) && !isModalOpen
      ensures t == SurgicalShort ==> && isPatientNurseModalOpen
                                     && isFormVisible == old(isFormVisible)
                                     && editingEvaluation == old(editingEvaluation)
      ensures t != SurgicalShort ==> && isFormVisible && editingEvaluation.None?
                                     && isPatientNurseModalOpen == old(isPatientNurseModalOpen)
      ensures evaluations == old(evaluations)
      ensures PreloadedKept()
      ensures currentView == old(currentView) && ReportSideKept()
    {
      selectedEvaluationType := Some(t);
      isModalOpen := false;
      if t == SurgicalShort {
        isPatientNurseModalOpen := true;
      } else {
        editingEvaluation := None;
        isFormVisible := true;
      }
    }

    /** The patient and nurse picker's selection: both ids are kept for the form, which opens on a new record. */
    method SelectPatientNurse(patientId: string, nurseId: string)
      modifies this
      ensures preloadedPatientId == Some(patientId) && preloadedNurseId == Some(nurseId)
      ensures !isPatientNurseModalOpen && editingEvaluation.None? && isFormVisible
      ensures evaluations == old(evaluations) && selectedEvaluationType == old(selectedEvaluationType)
      ensures isModalOpen == old(isModalOpen)
      ensures currentView == old(currentView) && ReportSideKept()
    {
      preloadedPatientId := Some(patientId);
      preloadedNurseId := Some(nurseId);
      isPatientNurseModalOpen := false;
      editingEvaluation := None;
      isFormVisible := true;
    }

    /** The patient and nurse picker's close request. */
    method ClosePatientNurseModal()
      modifies this
      ensures !isPatientNurseModalOpen
      ensures evaluations == old(evaluations) && isFormVisible == old(isFormVisible)
      ensures editingEvaluation == old(editingEvaluation)
      ensures isModalOpen == old(isModalOpen)
      ensures selectedEvaluationType == old(selectedEvaluationType) && PreloadedKept()
      ensures currentView == old(currentView) && ReportSideKept()
    {
      isPatientNurseModalOpen := false;
    }

    /** "Editar" on a stored evaluation: its type's form opens on it. */
    method EditEvaluation(e: NursingEvaluation)
      modifies this
      ensures selectedEvaluationType == Some(e.Base().evaluationType)
      ensures editingEvaluation == Some(e) && isFormVisible
      ensures evaluations == old(evaluations) && PickersKept() && PreloadedKept()
      ensures currentView == old(currentView) && ReportSideKept()
    {
      selectedEvaluationType := Some(e.Base().evaluationType);
      editingEvaluation := Some(e);
      isFormVisible := true;
    }

    /** "Eliminar": the records with that id leave the list; nothing else changes. */
    method DeleteEvaluation(id: string)
      modifies this
      ensures evaluations == RecordStore.DeleteEvaluation(old(evaluations), id)
      ensures forall e :: e in evaluations <==> e in old(evaluations) && e.Id() != id
      ensures isFormVisible == old(isFormVisible) && editingEvaluation == old(editingEvaluation)
      ensures selectedEvaluationType == old(selectedEvaluationType)
      ensures PickersKept() && PreloadedKept()
      ensures currentView == old(currentView) && ReportSideKept()
    {
      evaluations := RecordStore.DeleteEvaluation(evaluations, id);
    }

    /**
     * The form's save: the list is updated (in place while editing, at the
     * front otherwise) and the form closes with no record or type selected.
     */
    method SaveEvaluation(e: NursingEvaluation)
      modifies this
      ensures evaluations == RecordStore.SaveEvaluation(old(evaluations), old(editingEvaluation).Some?, e)
      ensures old(editingEvaluation).None? ==> evaluations == [e] + old(evaluations)
      ensures !isFormVisible && editingEvaluation.None? && selectedEvaluationType.None?
      ensures PreloadedKept() && PickersKept()
      ensures currentView == old(currentView) && ReportSideKept()
    {
      evaluations := RecordStore.SaveEvaluation(evaluations, editingEvaluation.Some?, e);
      isFormVisible := false;
      editingEvaluation := None;
      selectedEvaluationType := None;
    }

    /** The form's cancel: it closes, and the record, the type and both preloaded ids are cleared. */
    method CancelForm()
      modifies this
      ensures !isFormVisible && editingEvaluation.None? && selectedEvaluationType.None?
      ensures preloadedPatientId.None? && preloadedNurseId.None?
      ensures evaluations == old(evaluations) && PickersKept()
      ensures currentView == old(currentView) && ReportSideKept()
    {
      isFormVisible := false;
      editingEvaluation := None;
      selectedEvaluationType := None;
      preloadedPatientId := None;
      preloadedNurseId := None;
    }

    // ----- Surgical reports

    /** "Nuevo Informe Quirúrgico" opens the patient and surgery picker. */
    method NewSurgicalReport()
      modifies this
      ensures isPatientModalOpen
      ensures surgicalReports == old(surgicalReports) && isSurgicalFormVisible == old(isSurgicalFormVisible)
      ensures editingSurgicalReport == old(editingSurgicalReport)
      ensures currentView == old(currentView) && EvaluationSideKept()
    {
      isPatientModalOpen := true;
    }

    /** The patient and surgery picker's close request. */
    method ClosePatientModal()
      modifies this
      ensures !isPatientModalOpen
      ensures surgicalReports == old(surgicalReports) && isSurgicalFormVisible == old(isSurgicalFormVisible)
      ensures editingSurgicalReport == old(editingSurgicalReport)
      ensures currentView == old(currentView) && EvaluationSideKept()
    {
      isPatientModalOpen := false;
    }

    /**
     * The picker's selection. When both ids are found in the catalogue, the
     * prefilled report opens in the form and the picker closes; when either
     * is missing, nothing changes at all. The report built is returned.
     */
    method SelectPatientSurgery(patientId: string, surgeryId: string, nowMillis: nat, isoNow: string)
      returns (prefilled: Option<SurgicalReport>)
      modifies this
      ensures prefilled == ReportPrefill.PrefillReport(patientId, surgeryId, nowMillis, isoNow)
      ensures prefilled.Some? ==> && editingSurgicalReport == prefilled
                                  && isSurgicalFormVisible && !isPatientModalOpen
      ensures prefilled.None? ==> ReportSideKept()
      ensures surgicalReports == old(surgicalReports)
      ensures currentView == old(currentView) && EvaluationSideKept()
    {
      prefilled := ReportPrefill.PrefillReport(patientId, surgeryId, nowMillis, isoNow);
      OpenPrefilled(prefilled);
    }

    /** The second half of the selection: a report built opens in the form and the picker closes. */
    method OpenPrefilled(prefilled: Option<SurgicalReport>)
      modifies this
      ensures prefilled.Some? ==> && editingSurgicalReport == prefilled
                                  && isSurgicalFormVisible && !isPatientModalOpen
      ensures prefilled.None? ==> ReportSideKept()
      ensures surgicalReports == old(surgicalReports)
      ensures currentView == old(currentView) && EvaluationSideKept()
    {
      if prefilled.Some? {
        editingSurgicalReport := prefilled;
        isSurgicalFormVisible := true;
        isPatientModalOpen := false;
      }
    }

    /** "Editar" on a stored report: the form opens on it. */
    method EditSurgicalReport(r: SurgicalReport)
      modifies this
      ensures editingSurgicalReport == Some(r) && isSurgicalFormVisible
      ensures surgicalReports == old(surgicalReports) && isPatientModalOpen == old(isPatientModalOpen)
      ensures currentView == old(currentView) && EvaluationSideKept()
    {
      editingSurgicalReport := Some(r);
      isSurgicalFormVisible := true;
    }

    /** "Eliminar": the reports with that id leave the list; nothing else changes. */
    method DeleteSurgicalReport(id: string)
      modifies this
      ensures surgicalReports == RecordStore.DeleteReport(old(surgicalReports), id)
      ensures forall x :: x in surgicalReports <==> x in old(surgicalReports) && x.id != id
      ensures isSurgicalFormVisible == old(isSurgicalFormVisible)
      ensures editingSurgicalReport == old(editingSurgicalReport)
      ensures isPatientModalOpen == old(isPatientModalOpen)
      ensures currentView == old(currentView) && EvaluationSideKept()
    {
      surgicalReports := RecordStore.DeleteReport(surgicalReports, id);
    }

    /**
     * The form's save: the report replaces the stored one with its id, or is
     * put first when there is none, and the form closes with nothing being
     * edited. The report is then the one stored under its id.
     */
    method SaveSurgicalReport(r: SurgicalReport)
      modifies this
      ensures surgicalReports == RecordStore.SaveReport(old(surgicalReports), r)
      ensures KeyedLists.Find(surgicalReports, ReportId, r.id) == Some(r)
      ensures !isSurgicalFormVisible && editingSurgicalReport.None?
      ensures isPatientModalOpen == old(isPatientModalOpen)
      ensures currentView == old(currentView) && EvaluationSideKept()
    {
      surgicalReports := RecordStore.SaveReport(surgicalReports, r);
      isSurgicalFormVisible := false;
      editingSurgicalReport := None;
    }

    /** The form's cancel: it closes with nothing being edited, and the list stays. */
    method CancelSurgicalForm()
      modifies this
      ensures !isSurgicalFormVisible && editingSurgicalReport.None?
      ensures surgicalReports == old(surgicalReports) && isPatientModalOpen == old(isPatientModalOpen)
      ensures currentView == old(currentView) && EvaluationSideKept()
    {
      isSurgicalFormVisible := false;
      editingSurgicalReport := None;
    }
  }
}
