/**
 * The administered-medication table of a surgical report: append a row
 * stamped with the clock, delete by id, and rewrite one field of the rows
 * with an id. Every row offers a delete button. The clock's hours, minutes
 * and milliseconds are parameters.
 */
module MedicationSection {
  import opened SurgicalReports
  import opened Strings
  import KeyedLists

  /** `addRow`: one row stamped now, with no medication and no dose yet. */
  function AddRow(rows: seq<MedicationRow>, hours: Hour, minutes: Minute, nowMillis: nat)
    : (r: seq<MedicationRow>)
    ensures |r| == |rows| + 1 && r[..|rows|] == rows
    ensures var m := r[|rows|];
            && m.id == StampedId("med", nowMillis) && m.hora == ClockTime(hours, minutes)
            && m.medicacion == "" && m.dosis == ""
  {
    rows + [MedicationRow(StampedId("med", nowMillis), ClockTime(hours, minutes), "", "")]
  }

  /** `removeRow`: drops the rows with that id. */
  function RemoveRow(rows: seq<MedicationRow>, id: string): (r: seq<MedicationRow>)
    ensures |r| <= |rows|
    ensures forall m :: m in r <==> m in rows && m.id != id
  {
    KeyedLists.RemoveById(rows, MedicationId, id)
  }

  /** The three inputs of a row. */
  datatype MedicationField = Hora | Medicacion | Dosis

  function Field(m: MedicationRow, f: MedicationField): string
  {
    match f
    case Hora => m.hora
    case Medicacion => m.medicacion
    case Dosis => m.dosis
  }

  /** `{ ...m, [field]: value }` on one row: that field changes, the id and the others do not. */
  function EditRow(m: MedicationRow, f: MedicationField, value: string): (n: MedicationRow)
    ensures n.id == m.id
    ensures forall g :: Field(n, g) == if g == f then value else Field(m, g)
  {
    match f
    case Hora => m.(hora := value)
    case Medicacion => m.(medicacion := value)
    case Dosis => m.(dosis := value)
  }

  /** `updateRow`: the rows with that id get the edit, the others stay as they are. */
  function UpdateRow(rows: seq<MedicationRow>, id: string, f: MedicationField, value: string)
    : (r: seq<MedicationRow>)
    ensures |r| == |rows|
    ensures forall i :: 0 <= i < |rows| ==>
              r[i] == if rows[i].id == id then EditRow(rows[i], f, value) else rows[i]
  {
    KeyedLists.MapWhere(rows, MedicationId, id, m => EditRow(m, f, value))
  }

  /** Every row offers a delete button, unlike the ward rows of the vital-sign table. */
  predicate CanDelete(m: MedicationRow)
  {
    true
  }

  /** Deleting the row just added, under an id no earlier row has, gives back the earlier rows. */
  lemma AddThenRemove(rows: seq<MedicationRow>, hours: Hour, minutes: Minute, nowMillis: nat)
    requires forall m :: m in rows ==> m.id != StampedId("med", nowMillis)
    ensures RemoveRow(AddRow(rows, hours, minutes, nowMillis), StampedId("med", nowMillis)) == rows
  {
    var id := StampedId("med", nowMillis);
    var added := AddRow(rows, hours, minutes, nowMillis);
    assert added == rows + [added[|rows|]];
    KeyedLists.RemoveByIdAppend(rows, [added[|rows|]], MedicationId, id);
    KeyedLists.RemoveAbsentId(rows, MedicationId, id);
    assert KeyedLists.RemoveById([added[|rows|]], MedicationId, id) == [];
  }

  /** Deleting a row through its button removes it, whatever row it is. */
  lemma DeleteRemovesRow(rows: seq<MedicationRow>, i: nat)
    requires i < |rows|
    ensures CanDelete(rows[i])
    ensures rows[i] !in RemoveRow(rows, rows[i].id)
    ensures |RemoveRow(rows, rows[i].id)| < |rows|
  {
    KeyedLists.RemovePresentId(rows, MedicationId, rows[i].id, i);
  }

  /** Editing a field twice with the same value is the same as editing it once. */
  lemma UpdateIdempotent(rows: seq<MedicationRow>, id: string, f: MedicationField, value: string)
    ensures UpdateRow(UpdateRow(rows, id, f, value), id, f, value) == UpdateRow(rows, id, f, value)
  {
    var once := UpdateRow(rows, id, f, value);
    var twice := UpdateRow(once, id, f, value);
    forall i | 0 <= i < |rows|
      ensures twice[i] == once[i]
    {
      if rows[i].id == id {
        var w := once[i];
        var ww := EditRow(w, f, value);
        assert Field(ww, Hora) == Field(w, Hora);
        assert Field(ww, Medicacion) == Field(w, Medicacion);
        assert Field(ww, Dosis) == Field(w, Dosis);
      }
    }
  }

  /** What the table's controls do: the add button, a row's delete button, a row's input. */
  datatype MedicationEvent =
    | AddMed(hours: Hour, minutes: Minute, nowMillis: nat)
    | RemoveMed(id: string)
    | UpdateMed(id: string, field: MedicationField, value: string)

  function Step(rows: seq<MedicationRow>, e: MedicationEvent): seq<MedicationRow>
  {
    match e
    case AddMed(h, m, t) => AddRow(rows, h, m, t)
    case RemoveMed(id) => RemoveRow(rows, id)
    case UpdateMed(id, f, v) => UpdateRow(rows, id, f, v)
  }
}
