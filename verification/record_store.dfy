/**
 * The two lists the application keeps: the nursing evaluations and the
 * surgical reports, each saved and deleted by id. The evaluation list
 * decides between replacing and prepending by whether a record is being
 * edited; the report list decides by whether its id is already stored.
 */
module RecordStore {
  import opened Wrappers
  import opened Evaluations
  import opened SurgicalReports
  import KeyedLists

  /** The id an evaluation is stored under. */
  function EvaluationId(e: NursingEvaluation): string { e.Id() }

  /**
   * `handleSaveEvaluation`'s list update. While editing, every stored record
   * with the saved record's id is replaced in place; otherwise the record is
   * put first.
   */
  function SaveEvaluation(evals: seq<NursingEvaluation>, editing: bool, e: NursingEvaluation)
    : (r: seq<NursingEvaluation>)
    ensures editing ==> |r| == |evals|
    ensures editing ==> forall i :: 0 <= i < |evals| ==>
                          r[i] == if evals[i].Id() == e.Id() then e else evals[i]
    ensures !editing ==> |r| == |evals| + 1 && r[0] == e && r[1..] == evals
    ensures !editing ==> KeyedLists.Find(r, EvaluationId, e.Id()) == Some(e)
  {
    if editing then KeyedLists.MapWhere(evals, EvaluationId, e.Id(), (_: NursingEvaluation) => e)
    else [e] + evals
  }

  /** Saving an edited record whose id is stored makes it the record found under that id. */
  lemma SaveEditedIsFound(evals: seq<NursingEvaluation>, e: NursingEvaluation, k: nat)
    requires k < |evals| && evals[k].Id() == e.Id()
    ensures KeyedLists.Find(SaveEvaluation(evals, true, e), EvaluationId, e.Id()) == Some(e)
  {
    var r := SaveEvaluation(evals, true, e);
    assert r[k].Id() == e.Id();
    var i := KeyedLists.FindIndex(r, EvaluationId, e.Id());
    assert evals[i].Id() == e.Id();
  }

  /**
   * The list update follows the editing flag, not the stored ids: an edited
   * record whose id is no longer stored (it was deleted meanwhile, say) is
   * not saved at all.
   */
  lemma SaveEditedOfUnknownIdChangesNothing(evals: seq<NursingEvaluation>, e: NursingEvaluation)
    requires forall i :: 0 <= i < |evals| ==> evals[i].Id() != e.Id()
    ensures SaveEvaluation(evals, true, e) == evals
  {
    var r := SaveEvaluation(evals, true, e);
    assert forall i :: 0 <= i < |evals| ==> r[i] == evals[i];
  }

  /** `handleDeleteEvaluation`: every record with that id goes, the rest stay. */
  function DeleteEvaluation(evals: seq<NursingEvaluation>, id: string): (r: seq<NursingEvaluation>)
    ensures |r| <= |evals|
    ensures forall e :: e in r <==> e in evals && e.Id() != id
  {
    KeyedLists.RemoveById(evals, EvaluationId, id)
  }

  /** Deleting an id no record has changes nothing. */
  lemma DeleteUnknownEvaluation(evals: seq<NursingEvaluation>, id: string)
    requires forall i :: 0 <= i < |evals| ==> evals[i].Id() != id
    ensures DeleteEvaluation(evals, id) == evals
  {
    KeyedLists.RemoveAbsentId(evals, EvaluationId, id);
  }

  /** Deleting a record just added under a new id gives back the list before it. */
  lemma SaveNewThenDeleteEvaluation(evals: seq<NursingEvaluation>, e: NursingEvaluation)
    requires forall i :: 0 <= i < |evals| ==> evals[i].Id() != e.Id()
    ensures DeleteEvaluation(SaveEvaluation(evals, false, e), e.Id()) == evals
  {
    assert SaveEvaluation(evals, false, e) == [e] + evals;
    KeyedLists.RemoveByIdAppend([e], evals, EvaluationId, e.Id());
    KeyedLists.RemoveAbsentId(evals, EvaluationId, e.Id());
    assert KeyedLists.RemoveById([e], EvaluationId, e.Id()) == [];
  }

  /**
   * `handleSaveSurgicalReport`'s list update: when some stored report has the
   * id (`findIndex` finds it), every report with that id is replaced in
   * place; otherwise the report is put first. Either way the report is the
   * one found under its id afterwards and the other reports are all kept.
   */
  function SaveReport(reports: seq<SurgicalReport>, report: SurgicalReport): (r: seq<SurgicalReport>)
    ensures KeyedLists.FindIndex(reports, ReportId, report.id) >= 0 ==>
              && |r| == |reports|
              && forall i :: 0 <= i < |reports| ==>
                   r[i] == if reports[i].id == report.id then report else reports[i]
    ensures KeyedLists.FindIndex(reports, ReportId, report.id) == -1 ==> r == [report] + reports
    ensures KeyedLists.Find(r, ReportId, report.id) == Some(report)
    ensures forall x :: x in reports && x.id != report.id ==> x in r
  {
    if KeyedLists.FindIndex(reports, ReportId, report.id) >= 0 then
      var r := KeyedLists.MapWhere(reports, ReportId, report.id, (_: SurgicalReport) => report);
      ReplacedIsFound(reports, r, report);
      r
    else
      [report] + reports
  }

  /** After a replacement by id, the first report with that id is the new one. */
  lemma ReplacedIsFound(reports: seq<SurgicalReport>, r: seq<SurgicalReport>, report: SurgicalReport)
    requires KeyedLists.FindIndex(reports, ReportId, report.id) >= 0
    requires |r| == |reports|
    requires forall i :: 0 <= i < |reports| ==>
               r[i] == if reports[i].id == report.id then report else reports[i]
    ensures KeyedLists.Find(r, ReportId, report.id) == Some(report)
    ensures forall x :: x in reports && x.id != report.id ==> x in r
  {
    var k := KeyedLists.FindIndex(reports, ReportId, report.id);
    assert r[k].id == report.id;
    var i := KeyedLists.FindIndex(r, ReportId, report.id);
    assert reports[i].id == report.id;
    forall x | x in reports && x.id != report.id
      ensures x in r
    {
      var j :| 0 <= j < |reports| && reports[j] == x;
      assert r[j] == x;
    }
  }

  /** Saving the same report twice leaves the list as saving it once. */
  lemma SaveReportIdempotent(reports: seq<SurgicalReport>, report: SurgicalReport)
    ensures SaveReport(SaveReport(reports, report), report) == SaveReport(reports, report)
  {
    var once := SaveReport(reports, report);
    var k := KeyedLists.FindIndex(once, ReportId, report.id);
    assert once[k].id == report.id;
    var twice := SaveReport(once, report);
    assert |twice| == |once|;
    forall i | 0 <= i < |once|
      ensures twice[i] == once[i]
    {
      if once[i].id == report.id {
        if KeyedLists.FindIndex(reports, ReportId, report.id) >= 0 {
          assert once[i] == report;
        } else {
          assert i == 0;
        }
      }
    }
  }

  /** `handleDeleteSurgicalReport`: every report with that id goes, the rest stay. */
  function DeleteReport(reports: seq<SurgicalReport>, id: string): (r: seq<SurgicalReport>)
    ensures |r| <= |reports|
    ensures forall x :: x in r <==> x in reports && x.id != id
  {
    KeyedLists.RemoveById(reports, ReportId, id)
  }

  /** Deleting an id no report has changes nothing. */
  lemma DeleteUnknownReport(reports: seq<SurgicalReport>, id: string)
    requires forall i :: 0 <= i < |reports| ==> reports[i].id != id
    ensures DeleteReport(reports, id) == reports
  {
    KeyedLists.RemoveAbsentId(reports, ReportId, id);
  }

  /** Deleting a report just saved under a new id gives back the list before it. */
  lemma SaveNewThenDeleteReport(reports: seq<SurgicalReport>, report: SurgicalReport)
    requires forall i :: 0 <= i < |reports| ==> reports[i].id != report.id
    ensures DeleteReport(SaveReport(reports, report), report.id) == reports
  {
    assert SaveReport(reports, report) == [report] + reports;
    KeyedLists.RemoveByIdAppend([report], reports, ReportId, report.id);
    KeyedLists.RemoveAbsentId(reports, ReportId, report.id);
    assert KeyedLists.RemoveById([report], ReportId, report.id) == [];
  }
}
