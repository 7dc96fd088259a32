/**
 * The vital-sign table of a surgical report: the row list it is handed and
 * the three list transformations it hands back through `onChange` (append a
 * new operating-room reading, delete by id, rewrite one field of the rows
 * with an id), plus the rule that only operating-room rows offer a delete
 * button. The clock's hours, minutes and milliseconds are parameters.
 */
module VitalConstantsTable {
  import opened SurgicalReports
  import opened Strings
  import opened VitalSigns
  import KeyedLists
  import SurgicalCatalogue

  /** The reading of one kind held by a row. */
  function Reading(v: VitalConstant, k: VitalKind): real
  {
    match k
    case TasSistolica => v.tasSistolica
    case TadDiastolica => v.tadDiastolica
    case Fc => v.fc
    case SatO2 => v.satO2
    case Eva => v.eva
  }

  /** `addNewConstant`: one operating-room reading with the default values, stamped now. */
  function AddNewConstant(rows: seq<VitalConstant>, hours: Hour, minutes: Minute, nowMillis: nat)
    : (r: seq<VitalConstant>)
    ensures |r| == |rows| + 1 && r[..|rows|] == rows
    ensures var v := r[|rows|];
            && v.id == StampedId("vc", nowMillis) && v.hora == ClockTime(hours, minutes)
            && v.origen == Quirofano
            && Reading(v, TasSistolica) == 120.0 && Reading(v, TadDiastolica) == 80.0
            && Reading(v, Fc) == 75.0 && Reading(v, SatO2) == 98.0 && Reading(v, Eva) == 0.0
  {
    rows + [VitalConstant(StampedId("vc", nowMillis), ClockTime(hours, minutes),
                          120.0, 80.0, 75.0, 98.0, 0.0, Quirofano)]
  }

  /** A new row's time is `HH:MM`, two zero-padded digits each side, reading back as the clock. */
  lemma NewRowTime(rows: seq<VitalConstant>, hours: Hour, minutes: Minute, nowMillis: nat)
    ensures var h := AddNewConstant(rows, hours, minutes, nowMillis)[|rows|].hora;
            && |h| == 5 && h[2] == ':'
            && (forall i :: 0 <= i < 5 && i != 2 ==> IsDigit(h[i]))
            && h[..2] == PadStartZero(DecimalString(hours), 2)
            && h[3..] == PadStartZero(DecimalString(minutes), 2)
            && DigitsValue(h[..2]) == hours && DigitsValue(h[3..]) == minutes
  {
    TwoDigitsIsPadStart(hours);
    TwoDigitsIsPadStart(minutes);
    ClockTimeRoundTrip(hours, minutes);
  }

  /** `removeConstant`: drops the rows with that id. */
  function RemoveConstant(rows: seq<VitalConstant>, id: string): (r: seq<VitalConstant>)
    ensures |r| <= |rows|
    ensures forall v :: v in r <==> v in rows && v.id != id
  {
    KeyedLists.RemoveById(rows, VitalId, id)
  }

  /** The edits the table's inputs make: the time, or one of the five readings. */
  datatype VitalEdit = SetHora(hora: string) | SetReading(kind: VitalKind, value: real)

  /** `{ ...c, [field]: value }` on one row. */
  function EditRow(v: VitalConstant, e: VitalEdit): (w: VitalConstant)
    ensures w.id == v.id && w.origen == v.origen
    ensures e.SetHora? ==> w.hora == e.hora && forall k :: Reading(w, k) == Reading(v, k)
    ensures e.SetReading? ==>
              (w.hora == v.hora &&
               forall k :: Reading(w, k) == if k == e.kind then e.value else Reading(v, k))
  {
    match e
    case SetHora(h) => v.(hora := h)
    case SetReading(TasSistolica, x) => v.(tasSistolica := x)
    case SetReading(TadDiastolica, x) => v.(tadDiastolica := x)
    case SetReading(Fc, x) => v.(fc := x)
    case SetReading(SatO2, x) => v.(satO2 := x)
    case SetReading(Eva, x) => v.(eva := x)
  }

  /** `updateConstant`: the rows with that id get the edit, the others stay as they are. */
  function UpdateConstant(rows: seq<VitalConstant>, id: string, e: VitalEdit): (r: seq<VitalConstant>)
    ensures |r| == |rows|
    ensures forall i :: 0 <= i < |rows| ==> r[i] == if rows[i].id == id then EditRow(rows[i], e) else rows[i]
    ensures forall i :: 0 <= i < |rows| ==> r[i].id == rows[i].id && r[i].origen == rows[i].origen
  {
    KeyedLists.MapWhere(rows, VitalId, id, v => EditRow(v, e))
  }

  /** A row offers a delete button exactly when it was taken in the operating room. */
  predicate CanDelete(v: VitalConstant)
  {
    v.origen == Quirofano
  }

  /** Deleting the row just added, under an id no earlier row has, gives back the earlier rows. */
  lemma AddThenRemove(rows: seq<VitalConstant>, hours: Hour, minutes: Minute, nowMillis: nat)
    requires forall v :: v in rows ==> v.id != StampedId("vc", nowMillis)
    ensures RemoveConstant(AddNewConstant(rows, hours, minutes, nowMillis), StampedId("vc", nowMillis)) == rows
  {
    var id := StampedId("vc", nowMillis);
    var added := AddNewConstant(rows, hours, minutes, nowMillis);
    assert added == rows + [added[|rows|]];
    KeyedLists.RemoveByIdAppend(rows, [added[|rows|]], VitalId, id);
    KeyedLists.RemoveAbsentId(rows, VitalId, id);
    assert KeyedLists.RemoveById([added[|rows|]], VitalId, id) == [];
  }

  /** Applying the same edit twice is the same as applying it once. */
  lemma UpdateIdempotent(rows: seq<VitalConstant>, id: string, e: VitalEdit)
    ensures UpdateConstant(UpdateConstant(rows, id, e), id, e) == UpdateConstant(rows, id, e)
  {
    var once := UpdateConstant(rows, id, e);
    var twice := UpdateConstant(once, id, e);
    forall i | 0 <= i < |rows|
      ensures twice[i] == once[i]
    {
      if rows[i].id == id {
        var w := EditRow(rows[i], e);
        match e
        case SetHora(h) =>
          assert EditRow(w, e) == w;
        case SetReading(k, x) =>
          assert Reading(EditRow(w, e), k) == Reading(w, k);
          assert EditRow(w, e) == w by {
            assert forall o :: Reading(EditRow(w, e), o) == Reading(w, o);
            assert Reading(EditRow(w, e), TasSistolica) == Reading(w, TasSistolica);
            assert Reading(EditRow(w, e), TadDiastolica) == Reading(w, TadDiastolica);
            assert Reading(EditRow(w, e), Fc) == Reading(w, Fc);
            assert Reading(EditRow(w, e), SatO2) == Reading(w, SatO2);
            assert Reading(EditRow(w, e), Eva) == Reading(w, Eva);
          }
      }
    }
  }

  // ----- Ward rows are never removed through the table

  /** What the user can do to the table: add, press the delete button of row `index`, edit a row. */
  datatype TableEvent =
    | Add(hours: Hour, minutes: Minute, nowMillis: nat)
    | PressDelete(index: nat)
    | Edit(id: string, edit: VitalEdit)

  /** The list after one event; pressing a button the row does not show does nothing. */
  function Step(rows: seq<VitalConstant>, e: TableEvent): seq<VitalConstant>
  {
    match e
    case Add(h, m, t) => AddNewConstant(rows, h, m, t)
    case PressDelete(i) =>
      if i < |rows| && CanDelete(rows[i]) then RemoveConstant(rows, rows[i].id) else rows
    case Edit(id, ed) => UpdateConstant(rows, id, ed)
  }

  function Run(rows: seq<VitalConstant>, es: seq<TableEvent>): seq<VitalConstant>
    decreases |es|
  {
    if es == [] then rows else Run(Step(rows, es[0]), es[1..])
  }

  /** The ids of the ward rows. */
  function WardIds(rows: seq<VitalConstant>): set<string>
  {
    set v | v in rows && v.origen == Planta :: v.id
  }

  /**
   * An id the clock cannot stamp: after the `vc-` prefix its digits start with a
   * zero and there are at least two of them, as in the ward seed's `vc-001`.
   */
  predicate UnstampableId(id: string)
  {
    |id| > 4 && id[3] == '0'
  }

  /**
   * The table is well formed: no ward row shares its id with an operating-room
   * row, and every ward id is one the clock cannot stamp.
   */
  predicate WardRowsApart(rows: seq<VitalConstant>)
  {
    && (forall v, w :: v in rows && w in rows && v.origen == Planta && w.origen == Quirofano ==>
                         v.id != w.id)
    && (forall v :: v in rows && v.origen == Planta ==> UnstampableId(v.id))
  }

  /** A stamped id is never one of the ward's. */
  lemma StampedIdsAreStampable(nowMillis: nat)
    ensures !UnstampableId(StampedId("vc", nowMillis))
  {
  }

  /** Adding an operating-room row keeps the table well formed and every ward id. */
  lemma AddKeepsWardRows(rows: seq<VitalConstant>, h: Hour, m: Minute, t: nat)
    requires WardRowsApart(rows)
    ensures WardRowsApart(AddNewConstant(rows, h, m, t))
    ensures WardIds(AddNewConstant(rows, h, m, t)) == WardIds(rows)
  {
    var r := AddNewConstant(rows, h, m, t);
    var n := r[|rows|];
    assert r == rows + [n];
    StampedIdsAreStampable(t);
    assert forall v :: v in r <==> v in rows || v == n;
  }

  /** Deleting through an operating-room row's button keeps every ward row. */
  lemma DeleteKeepsWardRows(rows: seq<VitalConstant>, i: nat)
    requires WardRowsApart(rows)
    requires i < |rows| && CanDelete(rows[i])
    ensures WardRowsApart(RemoveConstant(rows, rows[i].id))
    ensures WardIds(RemoveConstant(rows, rows[i].id)) == WardIds(rows)
  {
    var r := RemoveConstant(rows, rows[i].id);
    assert forall v :: v in r ==> v in rows;
    assert forall v :: v in rows && v.origen == Planta ==> v in r;
  }

  /** Two lists whose rows carry the same ids and origins position by position. */
  predicate SameKeys(a: seq<VitalConstant>, b: seq<VitalConstant>)
  {
    |a| == |b| && forall i :: 0 <= i < |a| ==> a[i].id == b[i].id && a[i].origen == b[i].origen
  }

  /** Lists with the same ids and origins have the same ward ids. */
  lemma SameKeysSameWardIds(a: seq<VitalConstant>, b: seq<VitalConstant>)
    requires SameKeys(a, b)
    ensures WardIds(a) == WardIds(b)
  {
    forall x | x in WardIds(a) ensures x in WardIds(b) {
      var v :| v in a && v.origen == Planta && v.id == x;
      var j :| 0 <= j < |a| && a[j] == v;
      assert b[j] in b;
    }
    forall x | x in WardIds(b) ensures x in WardIds(a) {
      var v :| v in b && v.origen == Planta && v.id == x;
      var j :| 0 <= j < |b| && b[j] == v;
      assert a[j] in a;
    }
  }

  /** A list with the same ids and origins as a well-formed one is well formed. */
  lemma SameKeysApart(a: seq<VitalConstant>, b: seq<VitalConstant>)
    requires SameKeys(a, b) && WardRowsApart(b)
    ensures WardRowsApart(a)
  {
    forall v, w | v in a && w in a && v.origen == Planta && w.origen == Quirofano
      ensures v.id != w.id
    {
      var i :| 0 <= i < |a| && a[i] == v;
      var j :| 0 <= j < |a| && a[j] == w;
      assert b[i] in b && b[j] in b;
    }
    forall v | v in a && v.origen == Planta
      ensures UnstampableId(v.id)
    {
      var i :| 0 <= i < |a| && a[i] == v;
      assert b[i] in b;
    }
  }

  /** Editing a row keeps every id and origin, so the ward rows stay as they were. */
  lemma EditKeepsWardRows(rows: seq<VitalConstant>, id: string, ed: VitalEdit)
    requires WardRowsApart(rows)
    ensures WardRowsApart(UpdateConstant(rows, id, ed))
    ensures WardIds(UpdateConstant(rows, id, ed)) == WardIds(rows)
  {
    var r := UpdateConstant(rows, id, ed);
    assert SameKeys(r, rows);
    SameKeysApart(r, rows);
    SameKeysSameWardIds(r, rows);
  }

  /** One event keeps the table well formed and keeps every ward id. */
  lemma StepKeepsWardRows(rows: seq<VitalConstant>, e: TableEvent)
    requires WardRowsApart(rows)
    ensures WardRowsApart(Step(rows, e))
    ensures WardIds(Step(rows, e)) == WardIds(rows)
  {
    match e
    case Add(h, m, t) => AddKeepsWardRows(rows, h, m, t);
    case PressDelete(i) =>
      if i < |rows| && CanDelete(rows[i]) {
        DeleteKeepsWardRows(rows, i);
      }
    case Edit(id, ed) => EditKeepsWardRows(rows, id, ed);
  }

  /** The ward seed a prefilled report starts with is well formed, and so is an empty table. */
  lemma SeedIsWellFormed()
    ensures WardRowsApart(SurgicalCatalogue.MockVitalConstants)
    ensures WardRowsApart([])
    ensures WardIds(SurgicalCatalogue.MockVitalConstants) == {"vc-001", "vc-002"}
  {
    SurgicalCatalogue.WardSeedIsPlanta();
    var seed := SurgicalCatalogue.MockVitalConstants;
    assert seed[0] in seed && seed[1] in seed;
  }

  /** However the table is used, a well-formed list keeps every ward row. */
  lemma {:induction false} WardRowsNeverRemoved(rows: seq<VitalConstant>, es: seq<TableEvent>)
    requires WardRowsApart(rows)
    ensures WardRowsApart(Run(rows, es))
    ensures WardIds(Run(rows, es)) == WardIds(rows)
    decreases |es|
  {
    if es != [] {
      StepKeepsWardRows(rows, es[0]);
      WardRowsNeverRemoved(Step(rows, es[0]), es[1..]);
    }
  }
}
