/**
 * The clinic dataset: the typed schema (Clinic, Branch, Doctor, TreatmentCategory, Theme)
 * and the one literal instance the site is built from, with the cross-field invariants
 * that the selection providers, the booking form and the structured data rely on.
 */
module ClinicConfig {

  /** Six opaque style tokens; no parsing is done on them. */
  datatype Theme = Theme(
    primary: string,
    secondary: string,
    background: string,
    text: string,
    danger: string,
    font: string)

  /** A day label with its ordered time slots. */
  datatype Timing = Timing(day: string, slots: seq<string>)

  /** A labelled bucket of treatment names, in display order. */
  datatype TreatmentCategory = TreatmentCategory(category: string, items: seq<string>)

  datatype Doctor = Doctor(
    id: string,
    name: string,
    qualifications: seq<string>,
    regNo: string,
    profile: string,
    timings: seq<Timing>,
    treatments: seq<TreatmentCategory>)

  datatype Branch = Branch(
    id: string,
    name: string,
    address: string,
    phones: seq<string>,
    mapUrl: string,
    timings: string,
    doctors: seq<Doctor>)

  datatype Seo = Seo(gscMetaTag: string, ga4Id: string)

  datatype Clinic = Clinic(
    seo: Seo,
    languagesSupported: seq<string>,
    defaultLanguage: string,
    colorTheme: string,
    colorThemesDemo: seq<string>,
    themes: map<string, Theme>,
    branches: seq<Branch>)

  /** Every one of the six tokens carries a value. */
  predicate ThemeComplete(th: Theme)
  {
    th.primary != "" && th.secondary != "" && th.background != "" &&
    th.text != "" && th.danger != "" && th.font != ""
  }

  /** No two doctors of a branch share an identifier. */
  predicate UniqueDoctorIds(b: Branch)
  {
    forall i, j :: 0 <= i < j < |b.doctors| ==> b.doctors[i].id != b.doctors[j].id
  }

  /** No two branches share an identifier. */
  predicate UniqueBranchIds(c: Clinic)
  {
    forall i, j :: 0 <= i < j < |c.branches| ==> c.branches[i].id != c.branches[j].id
  }

  /**
   * The invariants the rest of the site takes for granted: the default language is one
   * of the supported ones, every theme name the providers and the picker use is a key of
   * the theme map, every theme is complete, and `branches[0].phones[0]` exists.
   */
  predicate WellFormed(c: Clinic)
  {
    && c.defaultLanguage in c.languagesSupported
    && c.colorTheme in c.themes
    && (forall i :: 0 <= i < |c.colorThemesDemo| ==> c.colorThemesDemo[i] in c.themes)
    && (forall name :: name in c.themes ==> ThemeComplete(c.themes[name]))
    && |c.branches| > 0
    && |c.branches[0].phones| > 0
    && UniqueBranchIds(c)
    && (forall i :: 0 <= i < |c.branches| ==> UniqueDoctorIds(c.branches[i]))
  }

  const DrJeevitha := Doctor(
    "dr-jeevitha",
    "Dr. Jeevitha",
    ["MBBS", "MD"],
    "92792",
    "Specialist in General Medicine, Women's Health & Preventive Care",
    [ Timing("Monday to Saturday", ["9:00 AM – 1:00 PM", "5:00 PM – 8:00 PM"]),
      Timing("Sunday", ["9:00 AM – 12:00 PM"]) ],
    [ TreatmentCategory("General Medicine",
        [ "All Types Of Fever", "HyperTension", "Diabetes Mellitus", "Cardiac Disorder",
          "Stroke", "Thyroid Disorders", "Asthma: C.O.P.D", "URTI: LRTI",
          "Liver Disorders", "Pneumonia", "Renal Disorders" ]),
      TreatmentCategory("Women's Health",
        ["PCOD", "Anaemia", "Menstrual Disorders", "Pregnancy Care etc."]) ])

  const DrRaj := Doctor(
    "dr-raj",
    "Dr. P.M. Raj",
    ["MBBS", "MS"],
    "071322",
    "Consultant Surgeon specializing in Laparoscopic & General Surgery",
    [ Timing("Monday to Saturday", ["10:00 AM – 2:00 PM", "6:00 PM – 9:00 PM"]),
      Timing("Sunday", ["10:00 AM – 1:00 PM"]) ],
    [ TreatmentCategory("Surgical Treatments",
        [ "All Laparoscopic Procedures", "Hernia Hydrocele", "Fistula",
          "Family Planning Procedures", "Hemorrhoids Fissure", "Swellings",
          "Ulcer Dressings", "First Aid", "IV/IM injection", "Wound Dressing",
          "Nebulization", "X-Ray", "ECD", "Breast Disorders", "Suturing" ]) ])

  const PragathiNagar := Branch(
    "pragathi-nagar",
    "Advaith Clinic – Pragathi Nagar",
    "Plot No. 389, Pragathi Nagar, Hyderabad",
    ["+91 9705809090", "+91 9640310581"],
    "https://maps.app.goo.gl/qZyn6nEBRKr5gxsZA",
    "9 AM – 9 PM",
    [DrJeevitha, DrRaj])

  /** The site's one configuration value. */
  const ClinicData := Clinic(
    Seo("google-site-verification=XYZ...", "G-XXXXXXXXXX"),
    ["en", "te", "hi"],
    "en",
    "trust-light",
    ["trust-light", "healing-green", "royal-care"],
    map[
      "trust-light" := Theme("#007BFF", "#F0F4F8", "#FFFFFF", "#1C1C1C", "#DC3545", "Inter, sans-serif"),
      "healing-green" := Theme("#43A047", "#E0F2F1", "#FFFFFF", "#2E7D32", "#D32F2F", "Lato, sans-serif"),
      "royal-care" := Theme("#1B1B3A", "#FFD700", "#FDFDFD", "#333333", "#C0392B", "Playfair Display, serif")
    ],
    [PragathiNagar])

  /** The dataset meets every invariant its consumers rely on. */
  lemma ClinicDataWellFormed()
    ensures WellFormed(ClinicData)
    ensures ClinicData.defaultLanguage == "en" && ClinicData.colorTheme == "trust-light"
    ensures ClinicData.branches[0].phones[0] == "+91 9705809090"
  {
    var c := ClinicData;
    forall name | name in c.themes
      ensures ThemeComplete(c.themes[name])
    {
      assert name == "trust-light" || name == "healing-green" || name == "royal-care";
    }
  }
}
