/**
 * The treatments listing: either one doctor's categories, or every category of every
 * doctor of the first branch tagged with that doctor's name.
 */
module TreatmentsListing {
  import opened Wrappers
  import opened ClinicConfig

  /** A category as the listing shows it; `doctorName` is present only on tagged entries. */
  datatype ListedCategory = ListedCategory(category: string, items: seq<string>, doctorName: Option<string>)

  /** One doctor's own categories, shown as they are. */
  function Plain(cats: seq<TreatmentCategory>): (r: seq<ListedCategory>)
    ensures |r| == |cats|
    ensures forall i :: 0 <= i < |r| ==> r[i] == ListedCategory(cats[i].category, cats[i].items, None)
  {
    seq(|cats|, i requires 0 <= i < |cats| => ListedCategory(cats[i].category, cats[i].items, None))
  }

  /** `doc.treatments.map(t => ({...t, doctorName: doc.name}))`. */
  function TaggedWith(doc: Doctor): (r: seq<ListedCategory>)
    ensures |r| == |doc.treatments|
    ensures forall i :: 0 <= i < |r| ==>
      r[i] == ListedCategory(doc.treatments[i].category, doc.treatments[i].items, Some(doc.name))
  {
    seq(|doc.treatments|, i requires 0 <= i < |doc.treatments| =>
      ListedCategory(doc.treatments[i].category, doc.treatments[i].items, Some(doc.name)))
  }

  /** The number of categories across the doctors. */
  function CategoryCount(ds: seq<Doctor>): nat
  {
    if |ds| == 0 then 0 else |ds[0].treatments| + CategoryCount(ds[1..])
  }

  /** Where the categories of doctor `i` start in the combined listing. */
  function CategoryOffset(ds: seq<Doctor>, i: nat): nat
    requires i <= |ds|
  {
    CategoryCount(ds[..i])
  }

  /** `doctors.flatMap(...)`: every doctor's tagged categories, doctor after doctor. */
  function AllDoctors(ds: seq<Doctor>): (r: seq<ListedCategory>)
    ensures |r| == CategoryCount(ds)
  {
    if |ds| == 0 then [] else TaggedWith(ds[0]) + AllDoctors(ds[1..])
  }

  /** `treatmentsToShow`, with the closed modal rendering nothing. */
  function TreatmentsToShow(isOpen: bool, doctor: Option<Doctor>, branch: Branch): (r: Option<seq<ListedCategory>>)
    ensures r.None? <==> !isOpen
    ensures isOpen && doctor.Some? ==> r == Some(Plain(doctor.value.treatments))
    ensures isOpen && doctor.None? ==> r.Some? && |r.value| == CategoryCount(branch.doctors)
  {
    if !isOpen then None
    else if doctor.Some? then Some(Plain(doctor.value.treatments))
    else Some(AllDoctors(branch.doctors))
  }

  lemma {:induction false} CategoryCountAppend(a: seq<Doctor>, b: seq<Doctor>)
    ensures CategoryCount(a + b) == CategoryCount(a) + CategoryCount(b)
  {
    if |a| == 0 {
      assert a + b == b;
    } else {
      assert (a + b)[1..] == a[1..] + b;
      CategoryCountAppend(a[1..], b);
    }
  }

  /** The first doctor's block starts at zero and each doctor's block follows the previous one. */
  lemma CategoryOffsetStep(ds: seq<Doctor>, i: nat)
    requires i < |ds|
    ensures CategoryOffset(ds, 0) == 0
    ensures CategoryOffset(ds, i + 1) == CategoryOffset(ds, i) + |ds[i].treatments|
    ensures CategoryOffset(ds, i + 1) <= CategoryCount(ds)
  {
    assert ds[..0] == [];
    assert ds[..i + 1] == ds[..i] + [ds[i]];
    CategoryCountAppend(ds[..i], [ds[i]]);
    assert [ds[i]][1..] == [];
    assert ds == ds[..i + 1] + ds[i + 1..];
    CategoryCountAppend(ds[..i + 1], ds[i + 1..]);
  }

  /** `CategoryOffset` of a list that starts with `d` is `d`'s block plus the offset in the rest. */
  lemma CategoryOffsetTail(ds: seq<Doctor>, i: nat)
    requires 0 < i <= |ds|
    ensures CategoryOffset(ds, i) == |ds[0].treatments| + CategoryOffset(ds[1..], i - 1)
  {
    assert ds[..i] == [ds[0]] + ds[1..][..i - 1];
    CategoryCountAppend([ds[0]], ds[1..][..i - 1]);
    assert [ds[0]][1..] == [];
  }

  /**
   * Order and tagging: category `j` of doctor `i` sits at `CategoryOffset(ds, i) + j`,
   * unchanged and tagged with that doctor's name.
   */
  lemma {:induction false} AllDoctorsAt(ds: seq<Doctor>, i: nat, j: nat)
    requires i < |ds| && j < |ds[i].treatments|
    ensures CategoryOffset(ds, i) + j < |AllDoctors(ds)|
    ensures AllDoctors(ds)[CategoryOffset(ds, i) + j]
         == ListedCategory(ds[i].treatments[j].category, ds[i].treatments[j].items, Some(ds[i].name))
  {
    CategoryOffsetStep(ds, i);
    if i > 0 {
      AllDoctorsAt(ds[1..], i - 1, j);
      CategoryOffsetTail(ds, i);
    }
  }

  /** Every entry of the combined listing is one category of one doctor, tagged with that doctor. */
  lemma {:induction false} AllDoctorsSource(ds: seq<Doctor>, k: nat) returns (i: nat, j: nat)
    requires k < |AllDoctors(ds)|
    ensures i < |ds| && j < |ds[i].treatments| && k == CategoryOffset(ds, i) + j
    ensures AllDoctors(ds)[k]
         == ListedCategory(ds[i].treatments[j].category, ds[i].treatments[j].items, Some(ds[i].name))
  {
    assert |ds| > 0;
    CategoryOffsetStep(ds, 0);
    if k < |ds[0].treatments| {
      i, j := 0, k;
    } else {
      var i', j' := AllDoctorsSource(ds[1..], k - |ds[0].treatments|);
      i, j := i' + 1, j';
      CategoryOffsetTail(ds, i);
    }
  }

  /** The doctor label next to a category: only without a specific doctor, and only if non-empty. */
  function ShownDoctorName(entry: ListedCategory, doctor: Option<Doctor>): (r: Option<string>)
    ensures r.Some? ==> doctor.None? && r == entry.doctorName && r.value != ""
  {
    if doctor.None? && entry.doctorName.Some? && entry.doctorName.value != "" then entry.doctorName else None
  }

  /** With a specific doctor no category carries a doctor label. */
  lemma NoLabelForOneDoctor(d: Doctor, branch: Branch, k: nat)
    requires k < |TreatmentsToShow(true, Some(d), branch).value|
    ensures ShownDoctorName(TreatmentsToShow(true, Some(d), branch).value[k], Some(d)) == None
  {
  }

  /**
   * Without a doctor, entry `k` is category `j` of doctor `i`, sitting in that doctor's block,
   * and it is labelled with that doctor's own (non-empty) name.
   */
  lemma LabelForAllDoctors(branch: Branch, k: nat) returns (i: nat, j: nat)
    requires k < |TreatmentsToShow(true, None, branch).value|
    ensures i < |branch.doctors| && j < |branch.doctors[i].treatments|
    ensures k == CategoryOffset(branch.doctors, i) + j
    ensures TreatmentsToShow(true, None, branch).value[k].category == branch.doctors[i].treatments[j].category
    ensures branch.doctors[i].name != "" ==>
      ShownDoctorName(TreatmentsToShow(true, None, branch).value[k], None) == Some(branch.doctors[i].name)
  {
    i, j := AllDoctorsSource(branch.doctors, k);
  }

  /** The dataset's combined listing: two categories of Dr. Jeevitha, then one of Dr. P.M. Raj. */
  lemma ClinicListing()
    ensures TreatmentsToShow(true, None, PragathiNagar) == Some([
      ListedCategory("General Medicine", DrJeevitha.treatments[0].items, Some("Dr. Jeevitha")),
      ListedCategory("Women's Health", DrJeevitha.treatments[1].items, Some("Dr. Jeevitha")),
      ListedCategory("Surgical Treatments", DrRaj.treatments[0].items, Some("Dr. P.M. Raj"))])
  {
    var ds := PragathiNagar.doctors;
    var general := ListedCategory("General Medicine", DrJeevitha.treatments[0].items, Some("Dr. Jeevitha"));
    var womens := ListedCategory("Women's Health", DrJeevitha.treatments[1].items, Some("Dr. Jeevitha"));
    var surgical := ListedCategory("Surgical Treatments", DrRaj.treatments[0].items, Some("Dr. P.M. Raj"));
    assert ds[1..][1..] == [];
    assert AllDoctors(ds[1..]) == TaggedWith(DrRaj) == [surgical];
    assert TaggedWith(DrJeevitha) == [general, womens];
    assert AllDoctors(ds) == [general, womens] + [surgical] == [general, womens, surgical];
  }
}
