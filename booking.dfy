/**
 * The booking form: per-field updates of the form record, the validity predicate, the
 * flattened treatment choices of the chosen doctor, doctor selection by id, the digits-only
 * WhatsApp number, the submission record with its defaults, and what a submit resets.
 */
module Booking {
  import opened Wrappers
  import opened ClinicConfig

  datatype FormData = FormData(
    patientName: string,
    phone: string,
    email: string,
    preferredDate: string,
    preferredTime: string,
    notes: string,
    whatsappConsent: bool)

  /** The form as first shown and as reset after a successful submit. */
  const EmptyForm := FormData("", "", "", "", "", "", false)

  /** The keys of the form record that `handleInputChange` can be given. */
  datatype Field = PatientName | Phone | Email | PreferredDate | PreferredTime | Notes | WhatsappConsent

  /** A field's content: text for the six text fields, a flag for the consent box. */
  datatype FieldValue = Text(text: string) | Flag(flag: bool)

  function Get(f: FormData, field: Field): FieldValue
  {
    match field
    case PatientName => Text(f.patientName)
    case Phone => Text(f.phone)
    case Email => Text(f.email)
    case PreferredDate => Text(f.preferredDate)
    case PreferredTime => Text(f.preferredTime)
    case Notes => Text(f.notes)
    case WhatsappConsent => Flag(f.whatsappConsent)
  }

  /** The value stored for a raw input string: the consent box keeps `value === 'true'`. */
  function Stored(field: Field, value: string): FieldValue
  {
    if field == WhatsappConsent then Flag(value == "true") else Text(value)
  }

  /** `handleInputChange(field, value)`: the named field takes the input, every other field is kept. */
  function WithInput(f: FormData, field: Field, value: string): (r: FormData)
    ensures Get(r, field) == Stored(field, value)
    ensures forall other :: other != field ==> Get(r, other) == Get(f, other)
  {
    match field
    case PatientName => f.(patientName := value)
    case Phone => f.(phone := value)
    case Email => f.(email := value)
    case PreferredDate => f.(preferredDate := value)
    case PreferredTime => f.(preferredTime := value)
    case Notes => f.(notes := value)
    case WhatsappConsent => f.(whatsappConsent := value == "true")
  }

  /** `isFormValid`: a name, a phone number and a chosen doctor. */
  predicate IsFormValid(f: FormData, doctor: Option<Doctor>)
  {
    f.patientName != "" && f.phone != "" && doctor.Some?
  }

  /** Email, date, time, notes and consent never change whether the form is valid. */
  lemma OptionalFieldsIrrelevant(f: FormData, doctor: Option<Doctor>, field: Field, value: string)
    requires field != PatientName && field != Phone
    ensures IsFormValid(WithInput(f, field, value), doctor) == IsFormValid(f, doctor)
  {
  }

  /** Clearing the name or the phone always makes the form invalid. */
  lemma RequiredFieldsDecide(f: FormData, doctor: Option<Doctor>, field: Field)
    requires field == PatientName || field == Phone
    ensures !IsFormValid(WithInput(f, field, ""), doctor)
  {
  }

  /** One entry of the treatment choice list: a treatment name with its category. */
  datatype TreatmentOption = TreatmentOption(category: string, name: string)

  /** The number of treatment names across the categories. */
  function ItemCount(cats: seq<TreatmentCategory>): nat
  {
    if |cats| == 0 then 0 else |cats[0].items| + ItemCount(cats[1..])
  }

  /** Where the entries of category `i` start in the flattened list. */
  function Offset(cats: seq<TreatmentCategory>, i: nat): nat
    requires i <= |cats|
  {
    ItemCount(cats[..i])
  }

  /** `category.items.map(...)`: each name of one category tagged with the category label. */
  function Tagged(cat: TreatmentCategory): (r: seq<TreatmentOption>)
    ensures |r| == |cat.items|
    ensures forall j :: 0 <= j < |r| ==> r[j] == TreatmentOption(cat.category, cat.items[j])
  {
    seq(|cat.items|, j requires 0 <= j < |cat.items| => TreatmentOption(cat.category, cat.items[j]))
  }

  /** `treatments.flatMap(...)`: all tagged names, category after category. */
  function Flatten(cats: seq<TreatmentCategory>): (r: seq<TreatmentOption>)
    ensures |r| == ItemCount(cats)
  {
    if |cats| == 0 then [] else Tagged(cats[0]) + Flatten(cats[1..])
  }

  /** `allTreatments`: the chosen doctor's flattened list, or nothing without a doctor. */
  function AllTreatments(doctor: Option<Doctor>): (r: seq<TreatmentOption>)
    ensures doctor.None? ==> r == []
    ensures doctor.Some? ==> |r| == ItemCount(doctor.value.treatments)
  {
    if doctor.Some? then Flatten(doctor.value.treatments) else []
  }

  /** The offset of the first category is zero and each category's block follows the previous one. */
  lemma OffsetStep(cats: seq<TreatmentCategory>, i: nat)
    requires i < |cats|
    ensures Offset(cats, 0) == 0
    ensures Offset(cats, i + 1) == Offset(cats, i) + |cats[i].items|
  {
    assert cats[..0] == [];
    ItemCountAppend(cats[..i], [cats[i]]);
    assert cats[..i + 1] == cats[..i] + [cats[i]];
    assert [cats[i]][1..] == [];
  }

  lemma {:induction false} ItemCountAppend(a: seq<TreatmentCategory>, b: seq<TreatmentCategory>)
    ensures ItemCount(a + b) == ItemCount(a) + ItemCount(b)
  {
    if |a| == 0 {
      assert a + b == b;
    } else {
      assert (a + b)[1..] == a[1..] + b;
      ItemCountAppend(a[1..], b);
    }
  }

  /**
   * Order and tagging: item `j` of category `i` sits at `Offset(cats, i) + j`, carrying
   * that category's label.
   */
  lemma {:induction false} FlattenAt(cats: seq<TreatmentCategory>, i: nat, j: nat)
    requires i < |cats| && j < |cats[i].items|
    ensures Offset(cats, i) + j < |Flatten(cats)|
    ensures Flatten(cats)[Offset(cats, i) + j] == TreatmentOption(cats[i].category, cats[i].items[j])
  {
    OffsetStep(cats, i);
    OffsetBound(cats, i + 1);
    if i == 0 {
      assert Flatten(cats) == Tagged(cats[0]) + Flatten(cats[1..]);
    } else {
      FlattenAt(cats[1..], i - 1, j);
      assert cats[..i] == [cats[0]] + cats[1..][..i - 1];
      ItemCountAppend([cats[0]], cats[1..][..i - 1]);
      assert [cats[0]][1..] == [];
    }
  }

  lemma {:induction false} OffsetBound(cats: seq<TreatmentCategory>, i: nat)
    requires i <= |cats|
    ensures Offset(cats, i) <= ItemCount(cats)
  {
    assert cats == cats[..i] + cats[i..];
    ItemCountAppend(cats[..i], cats[i..]);
  }

  /** Every entry of the flattened list comes from one item of one category, at its place. */
  lemma {:induction false} FlattenSource(cats: seq<TreatmentCategory>, k: nat) returns (i: nat, j: nat)
    requires k < |Flatten(cats)|
    ensures i < |cats| && j < |cats[i].items| && k == Offset(cats, i) + j
    ensures Flatten(cats)[k] == TreatmentOption(cats[i].category, cats[i].items[j])
  {
    assert |cats| > 0;
    OffsetStep(cats, 0);
    if k < |cats[0].items| {
      i, j := 0, k;
      assert cats[..0] == [];
    } else {
      var i', j' := FlattenSource(cats[1..], k - |cats[0].items|);
      i, j := i' + 1, j';
      assert cats[..i] == [cats[0]] + cats[1..][..i'];
      ItemCountAppend([cats[0]], cats[1..][..i']);
      assert [cats[0]][1..] == [];
    }
  }

  /** Choosing Dr. Jeevitha offers fifteen treatments; choosing no doctor offers none. */
  lemma JeevithaTreatmentCount()
    ensures |AllTreatments(Some(DrJeevitha))| == 15
    ensures AllTreatments(None) == []
  {
    var cats := DrJeevitha.treatments;
    assert cats[1..][1..] == [];
    assert ItemCount(cats[1..]) == 4;
  }

  /** `doctors.find(d => d.id === id)`: the first doctor with the id, or none. */
  function FindDoctor(ds: seq<Doctor>, id: string): (r: Option<Doctor>)
    ensures r.Some? ==> r.value in ds && r.value.id == id
    ensures r.None? ==> forall i :: 0 <= i < |ds| ==> ds[i].id != id
  {
    if |ds| == 0 then None
    else if ds[0].id == id then Some(ds[0])
    else FindDoctor(ds[1..], id)
  }

  /** A doctor whose id no earlier doctor shares is the one found by that id. */
  lemma {:induction false} FindDoctorFirstMatch(ds: seq<Doctor>, i: nat)
    requires i < |ds|
    requires forall j :: 0 <= j < i ==> ds[j].id != ds[i].id
    ensures FindDoctor(ds, ds[i].id) == Some(ds[i])
  {
    if i > 0 {
      FindDoctorFirstMatch(ds[1..], i - 1);
    }
  }

  /** With unique ids in a branch, selecting any doctor's id selects exactly that doctor. */
  lemma FindDoctorInBranch(b: Branch, i: nat)
    requires UniqueDoctorIds(b) && i < |b.doctors|
    ensures FindDoctor(b.doctors, b.doctors[i].id) == Some(b.doctors[i])
  {
    FindDoctorFirstMatch(b.doctors, i);
  }

  /** An ASCII decimal digit, the only characters `[^0-9]` does not match. */
  predicate IsDigit(c: char)
  {
    '0' <= c <= '9'
  }

  /** `phone.replace(/[^0-9]/g, '')`: the digits of `s`, in their order. */
  function DigitsOnly(s: string): (r: string)
    ensures |r| <= |s|
    ensures forall i :: 0 <= i < |r| ==> IsDigit(r[i])
    ensures forall c :: multiset(r)[c] == (if IsDigit(c) then multiset(s)[c] else 0)
  {
    if |s| == 0 then "" else
      assert s == [s[0]] + s[1..];
      (if IsDigit(s[0]) then [s[0]] else "") + DigitsOnly(s[1..])
  }

  /** A single character survives exactly when it is a digit; every other character is removed. */
  lemma DigitsOnlySingle(c: char)
    ensures DigitsOnly([c]) == (if IsDigit(c) then [c] else "")
  {
    assert [c][1..] == "";
  }

  /** Filtering distributes over concatenation, so the digits keep their relative order. */
  lemma {:induction false} DigitsOnlyAppend(a: string, b: string)
    ensures DigitsOnly(a + b) == DigitsOnly(a) + DigitsOnly(b)
  {
    if |a| == 0 {
      assert a + b == b;
    } else {
      assert (a + b)[1..] == a[1..] + b;
      DigitsOnlyAppend(a[1..], b);
    }
  }

  /** A string of digits alone passes through unchanged. */
  lemma {:induction false} DigitsOnlyKeepsDigits(s: string)
    requires forall i :: 0 <= i < |s| ==> IsDigit(s[i])
    ensures DigitsOnly(s) == s
  {
    if |s| > 0 {
      DigitsOnlyKeepsDigits(s[1..]);
    }
  }

  /** Filtering twice is filtering once. */
  lemma DigitsOnlyIdempotent(s: string)
    ensures DigitsOnly(DigitsOnly(s)) == DigitsOnly(s)
  {
    DigitsOnlyKeepsDigits(DigitsOnly(s));
  }

  /** The record posted to the intake endpoint; the timestamp is left out. */
  datatype Submission = Submission(
    patientName: string,
    phone: string,
    email: string,
    doctor: string,
    treatment: string,
    preferredDate: string,
    preferredTime: string,
    notes: string,
    whatsappConsent: string)

  /** JavaScript's `value || fallback` on strings. */
  function OrDefault(value: string, fallback: string): (r: string)
    ensures value != "" ==> r == value
    ensures value == "" ==> r == fallback
  {
    if value != "" then value else fallback
  }

  /** `submissionData`: each optional field, or its default when empty. */
  function BuildSubmission(f: FormData, doctor: Option<Doctor>, treatment: string): (r: Submission)
    ensures r.patientName == f.patientName && r.phone == f.phone
    ensures r.email == OrDefault(f.email, "Not provided")
    ensures r.doctor == OrDefault(if doctor.Some? then doctor.value.name else "", "Any available doctor")
    ensures r.treatment == OrDefault(treatment, "General consultation")
    ensures r.preferredDate == OrDefault(f.preferredDate, "Not specified")
    ensures r.preferredTime == OrDefault(f.preferredTime, "Any time")
    ensures r.notes == OrDefault(f.notes, "None")
    ensures r.whatsappConsent == (if f.whatsappConsent then "Yes" else "No")
  {
    Submission(
      f.patientName,
      f.phone,
      OrDefault(f.email, "Not provided"),
      OrDefault(if doctor.Some? then doctor.value.name else "", "Any available doctor"),
      OrDefault(treatment, "General consultation"),
      OrDefault(f.preferredDate, "Not specified"),
      OrDefault(f.preferredTime, "Any time"),
      OrDefault(f.notes, "None"),
      if f.whatsappConsent then "Yes" else "No")
  }

  /** A record built from a valid form has no empty field. */
  lemma SubmissionComplete(f: FormData, doctor: Option<Doctor>, treatment: string)
    requires IsFormValid(f, doctor)
    ensures var r := BuildSubmission(f, doctor, treatment);
      r.patientName != "" && r.phone != "" && r.email != "" && r.doctor != "" && r.treatment != "" &&
      r.preferredDate != "" && r.preferredTime != "" && r.notes != "" && r.whatsappConsent != ""
  {
  }

  /** A form with only the required fields filled gets every default. */
  lemma SubmissionDefaults(name: string, phone: string)
    ensures BuildSubmission(EmptyForm.(patientName := name, phone := phone), None, "")
         == Submission(name, phone, "Not provided", "Any available doctor", "General consultation",
                       "Not specified", "Any time", "None", "No")
  {
  }

  /** What a press of the submit button led to. */
  datatype SubmitOutcome =
    | NotSubmitted                                          // the form was invalid
    | Errored(data: Submission)                             // an exception was caught; the form is kept
    | Submitted(data: Submission, whatsApp: Option<string>) // the number a WhatsApp link is opened for

  /** The booking form's state, over the doctors and phones of the first branch. */
  class BookingForm {
    const doctors: seq<Doctor>
    const phones: seq<string>
    var doctor: Option<Doctor>
    var selectedTreatment: string
    var form: FormData

    /** Mounting: the doctor comes from the `selectedDoctor` prop of that moment. */
    constructor (branch: Branch, selectedDoctor: Option<Doctor>)
      ensures doctors == branch.doctors && phones == branch.phones
      ensures doctor == selectedDoctor && selectedTreatment == "" && form == EmptyForm
    {
      doctors := branch.doctors;
      phones := branch.phones;
      doctor := selectedDoctor;
      selectedTreatment := "";
      form := EmptyForm;
    }

    method HandleInputChange(field: Field, value: string)
      modifies this
      ensures form == WithInput(old(form), field, value)
      ensures doctor == old(doctor) && selectedTreatment == old(selectedTreatment)
    {
      form := WithInput(form, field, value);
    }

    /** The doctor picker: look the id up among the branch's doctors and clear the treatment. */
    method SelectDoctorById(id: string)
      modifies this
      ensures doctor == FindDoctor(doctors, id)
      ensures selectedTreatment == "" && form == old(form)
    {
      doctor := FindDoctor(doctors, id);
      selectedTreatment := "";
    }

    /** The treatment picker. */
    method SelectTreatment(name: string)
      modifies this
      ensures selectedTreatment == name
      ensures doctor == old(doctor) && form == old(form)
    {
      selectedTreatment := name;
    }

    /**
     * Takes the doctor the modal is opened for, clearing the treatment as a change of
     * doctor does in the picker. The source never does this after mounting.
     */
    method SyncSelectedDoctor(selectedDoctor: Option<Doctor>)
      modifies this
      ensures doctor == selectedDoctor && selectedTreatment == ""
      ensures form == old(form)
    {
      doctor := selectedDoctor;
      selectedTreatment := "";
    }

    /**
     * `handleSubmit`, with the outcome of the POST as a parameter: an invalid form is
     * ignored; a failed POST, or a missing phone when a WhatsApp link is wanted, is caught
     * and keeps the form; a success clears the form and the treatment but keeps the doctor.
     */
    method HandleSubmit(postSucceeds: bool) returns (outcome: SubmitOutcome)
      modifies this
      ensures !IsFormValid(old(form), old(doctor)) <==> outcome == NotSubmitted
      ensures !outcome.Submitted? ==>
        form == old(form) && doctor == old(doctor) && selectedTreatment == old(selectedTreatment)
      ensures !outcome.NotSubmitted? ==> outcome.data == BuildSubmission(old(form), old(doctor), old(selectedTreatment))
      ensures outcome.Submitted? <==>
        IsFormValid(old(form), old(doctor)) && postSucceeds && (old(form).whatsappConsent ==> |phones| > 0)
      ensures outcome.Submitted? ==>
        && form == EmptyForm && selectedTreatment == "" && doctor == old(doctor)
        && outcome.whatsApp == (if old(form).whatsappConsent then Some(DigitsOnly(phones[0])) else None)
    {
      if !IsFormValid(form, doctor) {
        return NotSubmitted;
      }
      var data := BuildSubmission(form, doctor, selectedTreatment);
      if !postSucceeds {
        return Errored(data);
      }
      var whatsApp: Option<string> := None;
      if form.whatsappConsent {
        if |phones| == 0 {
          return Errored(data);
        }
        whatsApp := Some(DigitsOnly(phones[0]));
      }
      form := EmptyForm;
      selectedTreatment := "";
      outcome := Submitted(data, whatsApp);
    }
  }
}
