/**
 * Search-engine metadata: the schema.org `MedicalClinic` record with one `Physician` per
 * doctor of the first branch, the page title, and the site-verification meta tag, which is
 * emitted only for a real (non-placeholder) tag and carries the tag without its
 * "google-site-verification=" prefix.
 */
module Seo {
  import opened Wrappers
  import opened ClinicConfig

  datatype Physician = Physician(name: string, medicalSpecialty: seq<string>)

  datatype PostalAddress = PostalAddress(
    streetAddress: string,
    addressLocality: string,
    addressRegion: string,
    addressCountry: string)

  datatype MedicalClinic = MedicalClinic(
    name: string,
    address: PostalAddress,
    telephone: seq<string>,
    openingHours: string,
    medicalSpecialty: seq<string>,
    physician: seq<Physician>)

  /** `doctor.treatments.map(t => t.category)`. */
  function Specialties(d: Doctor): (r: seq<string>)
    ensures |r| == |d.treatments|
    ensures forall i :: 0 <= i < |r| ==> r[i] == d.treatments[i].category
  {
    seq(|d.treatments|, i requires 0 <= i < |d.treatments| => d.treatments[i].category)
  }

  /** `branch.doctors.map(...)`: one physician per doctor, in branch order. */
  function Physicians(ds: seq<Doctor>): (r: seq<Physician>)
    ensures |r| == |ds|
    ensures forall i :: 0 <= i < |r| ==> r[i] == Physician(ds[i].name, Specialties(ds[i]))
  {
    seq(|ds|, i requires 0 <= i < |ds| => Physician(ds[i].name, Specialties(ds[i])))
  }

  /** `structuredData` for a branch: its name, street address and phones, and its physicians. */
  function StructuredData(branch: Branch): (r: MedicalClinic)
    ensures r.name == branch.name && r.address.streetAddress == branch.address
    ensures r.telephone == branch.phones
    ensures |r.physician| == |branch.doctors|
    ensures forall i :: 0 <= i < |r.physician| ==>
      r.physician[i].name == branch.doctors[i].name &&
      r.physician[i].medicalSpecialty == Specialties(branch.doctors[i])
  {
    MedicalClinic(
      branch.name,
      PostalAddress(branch.address, "Hyderabad", "Telangana", "IN"),
      branch.phones,
      "Mo-Sa 09:00-21:00, Su 09:00-12:00",
      ["General Medicine", "Women's Health", "Surgery", "Preventive Care"],
      Physicians(branch.doctors))
  }

  /** The dataset's record lists Dr. Jeevitha and then Dr. P.M. Raj with their category labels. */
  lemma ClinicPhysicians()
    ensures StructuredData(PragathiNagar).physician == [
      Physician("Dr. Jeevitha", ["General Medicine", "Women's Health"]),
      Physician("Dr. P.M. Raj", ["Surgical Treatments"])]
  {
    assert Specialties(DrJeevitha) == ["General Medicine", "Women's Health"];
    assert Specialties(DrRaj) == ["Surgical Treatments"];
  }

  const TitleSuffix := " - Expert Medical Care in Hyderabad"

  /** `document.title`: the branch name followed by the fixed suffix. */
  function PageTitle(branch: Branch): (r: string)
    ensures |r| == |branch.name| + |TitleSuffix|
    ensures r[..|branch.name|] == branch.name && r[|branch.name|..] == TitleSuffix
  {
    branch.name + TitleSuffix
  }

  const VerificationPrefix := "google-site-verification="

  /** The placeholder the dataset ships with. */
  const PlaceholderTag := "google-site-verification=XYZ..."

  /** The condition for adding the verification meta tag. */
  predicate EmitsVerification(tag: string)
  {
    tag != "" && tag != PlaceholderTag
  }

  /** `pat` occurs in `s` starting at position `k`. */
  predicate OccursAt(s: string, pat: string, k: nat)
  {
    k + |pat| <= |s| && s[k..k + |pat|] == pat
  }

  /** The first occurrence of `pat` in `s` at or after `start`. */
  function IndexFrom(s: string, pat: string, start: nat): (r: Option<nat>)
    requires start <= |s|
    decreases |s| - start
    ensures r.Some? ==> start <= r.value && OccursAt(s, pat, r.value)
    ensures r.Some? ==> forall k :: start <= k < r.value ==> !OccursAt(s, pat, k)
    ensures r.None? ==> forall k :: start <= k <= |s| ==> !OccursAt(s, pat, k)
  {
    if OccursAt(s, pat, start) then Some(start)
    else if start == |s| then None
    else IndexFrom(s, pat, start + 1)
  }

  /** JavaScript's `s.replace(pat, '')` with a string pattern: only the first occurrence goes. */
  function RemoveFirst(s: string, pat: string): (r: string)
    ensures IndexFrom(s, pat, 0).None? ==> r == s
    ensures IndexFrom(s, pat, 0).Some? ==>
      var i := IndexFrom(s, pat, 0).value; |r| == |s| - |pat| && r == s[..i] + s[i + |pat|..]
  {
    match IndexFrom(s, pat, 0)
    case None => s
    case Some(i) => s[..i] + s[i + |pat|..]
  }

  /** The content of the verification meta tag. */
  function VerificationContent(tag: string): string
  {
    RemoveFirst(tag, VerificationPrefix)
  }

  /** The verification meta tag's content, or nothing when the tag is not to be emitted. */
  function VerificationMeta(tag: string): (r: Option<string>)
    ensures r.Some? <==> EmitsVerification(tag)
  {
    if EmitsVerification(tag) then Some(VerificationContent(tag)) else None
  }

  /** A tag in the documented form yields exactly the token after the prefix. */
  lemma StripsLeadingPrefix(token: string)
    ensures VerificationContent(VerificationPrefix + token) == token
  {
    var tag := VerificationPrefix + token;
    assert tag[0..|VerificationPrefix|] == VerificationPrefix;
    assert OccursAt(tag, VerificationPrefix, 0);
    assert tag[|VerificationPrefix|..] == token;
  }

  /** A tag that never mentions the prefix is used as it is. */
  lemma BareTokenKept(tag: string)
    requires forall k :: 0 <= k <= |tag| ==> !OccursAt(tag, VerificationPrefix, k)
    ensures VerificationContent(tag) == tag
  {
  }

  /** Only the first occurrence is removed; a later one survives. */
  lemma StripsOnlyFirst(token: string)
    ensures VerificationContent(VerificationPrefix + VerificationPrefix + token) == VerificationPrefix + token
  {
    assert VerificationPrefix + VerificationPrefix + token == VerificationPrefix + (VerificationPrefix + token);
    StripsLeadingPrefix(VerificationPrefix + token);
  }

  /** The dataset carries the placeholder, so no verification tag is emitted. */
  lemma ClinicEmitsNoVerification()
    ensures VerificationMeta(ClinicData.seo.gscMetaTag) == None
  {
  }
}
