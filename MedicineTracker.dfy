/** The medicine tracker (src/components/MedicineTracker.tsx): validated append, active
    toggle and delete over the medicines collection, the timing labels and colours, and
    the active/inactive split. */
module MedicineTracker {
  import opened Types
  import opened Seqs

  /** The "Add Medicine" form. */
  datatype MedicineForm = MedicineForm(name: string, dosage: string, timing: Timing, frequency: string, notes: string)

  predicate MedicineFormComplete(form: MedicineForm)
  {
    form.name != "" && form.dosage != "" && form.frequency != ""
  }

  /** `addMedicine`: nothing happens unless name, dosage and frequency are all filled in;
      otherwise an active medicine is appended with the form's fields and `id`, its notes
      absent when left empty. */
  function AddMedicine(medicines: seq<Medicine>, form: MedicineForm, id: string): (r: seq<Medicine>)
    ensures !MedicineFormComplete(form) ==> r == medicines
    ensures MedicineFormComplete(form) ==>
      |r| == |medicines| + 1 && r[..|medicines|] == medicines &&
      var m := r[|medicines|];
      m.id == id && m.name == form.name && m.dosage == form.dosage && m.timing == form.timing &&
      m.frequency == form.frequency && m.isActive &&
      (m.notes == None <==> form.notes == "") &&
      (m.notes != None ==> m.notes.value == form.notes)
  {
    if !MedicineFormComplete(form) then medicines
    else
      var m := Medicine(id, form.name, form.dosage, form.timing, form.frequency, Optional(form.notes), true);
      assert (medicines + [m])[..|medicines|] == medicines;
      medicines + [m]
  }

  /** `toggleMedicineStatus(id)`: every medicine with that id has its active flag flipped
      and nothing else; the others and the length are unchanged. */
  function ToggleMedicineStatus(medicines: seq<Medicine>, id: string): (r: seq<Medicine>)
    ensures |r| == |medicines|
    ensures forall i :: 0 <= i < |r| && medicines[i].id != id ==> r[i] == medicines[i]
    ensures forall i :: 0 <= i < |r| && medicines[i].id == id ==>
      r[i].isActive == !medicines[i].isActive && r[i].(isActive := medicines[i].isActive) == medicines[i]
  {
    seq(|medicines|, i requires 0 <= i < |medicines| =>
      if medicines[i].id == id then medicines[i].(isActive := !medicines[i].isActive) else medicines[i])
  }

  /** Toggling the same id twice restores the list; toggling an id no medicine has
      changes nothing. */
  lemma ToggleMedicineTwice(medicines: seq<Medicine>, id: string)
    ensures ToggleMedicineStatus(ToggleMedicineStatus(medicines, id), id) == medicines
    ensures (forall i :: 0 <= i < |medicines| ==> medicines[i].id != id) ==>
      ToggleMedicineStatus(medicines, id) == medicines
  {
  }

  /** `deleteMedicine(id)`: the medicines whose id differs. */
  function DeleteMedicine(medicines: seq<Medicine>, id: string): (r: seq<Medicine>)
    ensures forall i :: 0 <= i < |r| ==> r[i].id != id && r[i] in medicines
    ensures forall i :: 0 <= i < |medicines| && medicines[i].id != id ==> medicines[i] in r
  {
    Filter(medicines, (m: Medicine) => m.id != id)
  }

  /** Deleting works piecewise, so the remaining medicines keep their order. */
  lemma DeleteMedicineKeepsOrder(a: seq<Medicine>, b: seq<Medicine>, m: Medicine, id: string)
    ensures DeleteMedicine(a + b, id) == DeleteMedicine(a, id) + DeleteMedicine(b, id)
    ensures DeleteMedicine([m], id) == if m.id == id then [] else [m]
  {
    FilterAppend(a, b, (m: Medicine) => m.id != id);
    FilterSingleton(m, (m: Medicine) => m.id != id);
  }

  /** Deleting an id that no medicine carries leaves the list unchanged. */
  lemma DeleteAbsentMedicine(medicines: seq<Medicine>, id: string)
    requires forall i :: 0 <= i < |medicines| ==> medicines[i].id != id
    ensures DeleteMedicine(medicines, id) == medicines
  {
    FilterKeepsAll(medicines, (m: Medicine) => m.id != id);
  }

  /** `getTimingColor(timing)`: the gray fallback exactly for strings that are not one of
      the three timing names. */
  function TimingColor(timing: string): (c: string)
    ensures c == "bg-gray-100 text-gray-800" <==> timing != "before-meal" && timing != "after-meal" && timing != "with-meal"
  {
    if timing == "before-meal" then "bg-blue-100 text-blue-800"
    else if timing == "after-meal" then "bg-green-100 text-green-800"
    else if timing == "with-meal" then "bg-yellow-100 text-yellow-800"
    else "bg-gray-100 text-gray-800"
  }

  /** `getTimingText(timing)`: a string is shown unchanged exactly when it is not one of
      the three timing names, each of which gets a label of its own. */
  function TimingText(timing: string): (text: string)
    ensures text == timing <==> timing != "before-meal" && timing != "after-meal" && timing != "with-meal"
  {
    if timing == "before-meal" then "Before Meal"
    else if timing == "after-meal" then "After Meal"
    else if timing == "with-meal" then "With Meal"
    else timing
  }

  /** The three timings are labelled "Before Meal", "After Meal" and "With Meal" and
      coloured differently from each other and from the fallback; any other string is
      shown as it is, in the fallback colour. */
  lemma TimingLabels(t: Timing, u: Timing, other: string)
    requires other != "before-meal" && other != "after-meal" && other != "with-meal"
    ensures TimingText(TimingName(t)) == match t
      case BeforeMeal => "Before Meal"
      case AfterMeal => "After Meal"
      case WithMeal => "With Meal"
    ensures TimingText(other) == other
    ensures TimingColor(TimingName(t)) == TimingColor(TimingName(u)) <==> t == u
    ensures TimingColor(TimingName(t)) != TimingColor(other) == "bg-gray-100 text-gray-800"
  {
  }

  predicate IsActive(m: Medicine) { m.isActive }

  predicate IsInactive(m: Medicine) { !m.isActive }

  function ActiveMedicines(medicines: seq<Medicine>): seq<Medicine>
  {
    Filter(medicines, IsActive)
  }

  function InactiveMedicines(medicines: seq<Medicine>): seq<Medicine>
  {
    Filter(medicines, IsInactive)
  }

  /** A new medicine starts active: the active count grows by one and the inactive count
      is unchanged. */
  lemma AddMedicineCounts(medicines: seq<Medicine>, form: MedicineForm, id: string)
    requires MedicineFormComplete(form)
    ensures |ActiveMedicines(AddMedicine(medicines, form, id))| == |ActiveMedicines(medicines)| + 1
    ensures |InactiveMedicines(AddMedicine(medicines, form, id))| == |InactiveMedicines(medicines)|
  {
    var r := AddMedicine(medicines, form, id);
    var m := r[|medicines|];
    assert r == medicines + [m];
    FilterAppend(medicines, [m], IsActive);
    FilterAppend(medicines, [m], IsInactive);
    FilterSingleton(m, IsActive);
    FilterSingleton(m, IsInactive);
  }

  /** Every medicine is either active or inactive: the two counts add up to the total. */
  lemma ActiveInactivePartition(medicines: seq<Medicine>)
    ensures |ActiveMedicines(medicines)| + |InactiveMedicines(medicines)| == |medicines|
    ensures forall i :: 0 <= i < |ActiveMedicines(medicines)| ==> ActiveMedicines(medicines)[i].isActive
    ensures forall i :: 0 <= i < |InactiveMedicines(medicines)| ==> !InactiveMedicines(medicines)[i].isActive
  {
    FilterComplement(medicines, IsActive, IsInactive);
  }
}
