/**
 * Language selection and translation lookup: the current language code, a setter guarded
 * by the supported-language list that writes through to storage under "clinic-language",
 * a startup restore from storage, and the lookup `t(key)` that falls back to the key.
 */
module Language {
  import opened Wrappers
  import ClinicConfig
  import Preference
  import Storage

  /** The storage key the language choice is kept under. */
  const LanguageSlot := "clinic-language"

  /** One `key: text` property of a translation table. */
  datatype Entry = Entry(key: string, text: string)

  /** A translation table: its properties in the order the object literal lists them. */
  type Table = seq<Entry>

  const English: Table := [
    Entry("clinic.name", "Advaith Clinic"),
    Entry("clinic.tagline", "Compassionate Care, Advanced Treatment"),
    Entry("nav.home", "Home"),
    Entry("nav.doctors", "Doctors"),
    Entry("nav.treatments", "Treatments"),
    Entry("nav.contact", "Contact"),
    Entry("hero.title", "Your Health, Our Priority"),
    Entry("hero.subtitle", "Expert medical care with personalized attention for you and your family"),
    Entry("hero.cta", "Book Appointment"),
    Entry("doctors.title", "Our Expert Doctors"),
    Entry("doctors.reg_no", "Reg. No."),
    Entry("doctors.timings", "Timings"),
    Entry("doctors.treatments", "Treatments"),
    Entry("doctor.book_now", "Book Now"),
    Entry("treatments.title", "Our Treatments"),
    Entry("treatments.close", "Close"),
    Entry("booking.title", "Book Appointment"),
    Entry("booking.select_doctor", "Select Doctor"),
    Entry("booking.select_treatment", "Select Treatment"),
    Entry("booking.whatsapp", "Book via WhatsApp"),
    Entry("booking.submit", "Submit"),
    Entry("booking.close", "Close"),
    Entry("footer.call_now", "Call Now"),
    Entry("footer.treatments", "Treatments"),
    Entry("footer.book_now", "Book Now"),
    Entry("footer.address", "Address"),
    Entry("footer.phone", "Phone"),
    Entry("footer.timings", "Timings"),
    Entry("footer.directions", "Get Directions"),
    Entry("testimonials.title", "What Our Patients Say"),
    Entry("testimonials.subtitle", "Real experiences from our valued patients who trust us with their healthcare needs")
  ]

  const Telugu: Table := [
    Entry("clinic.name", "అద్వైత్ క్లినిక్"),
    Entry("clinic.tagline", "దయగల సంరక్షణ, అధునాతన చికిత్స"),
    Entry("nav.home", "హోమ్"),
    Entry("nav.doctors", "వైద్యులు"),
    Entry("nav.treatments", "చికిత్సలు"),
    Entry("nav.contact", "సంప్రదింపు"),
    Entry("hero.title", "మీ ఆరోగ్యం, మా ప్రాధాన్యత"),
    Entry("hero.subtitle", "మీకు మరియు మీ కుటుంబానికి వ్యక్తిగత శ్రద్ధతో నిపుణ వైద్య సంరక్షణ"),
    Entry("hero.cta", "అపాయింట్మెంట్ బుక్ చేయండి"),
    Entry("doctors.title", "మా నిపుణ వైద్యులు"),
    Entry("doctors.reg_no", "రిజిస్ట్రేషన్ నం."),
    Entry("doctors.timings", "సమయాలు"),
    Entry("doctors.treatments", "చికిత్సలు"),
    Entry("doctor.book_now", "ఇప్పుడే బుక్ చేయండి"),
    Entry("treatments.title", "మా చికిత్సలు"),
    Entry("treatments.close", "మూసివేయండి"),
    Entry("booking.title", "అపాయింట్మెంట్ బుక్ చేయండి"),
    Entry("booking.select_doctor", "వైద్యుడిని ఎంచుకోండి"),
    Entry("booking.select_treatment", "చికిత్సను ఎంచుకోండి"),
    Entry("booking.whatsapp", "WhatsApp ద్వారా బుక్ చేయండి"),
    Entry("booking.submit", "సమర్పించండి"),
    Entry("booking.close", "మూసివేయండి"),
    Entry("footer.call_now", "ఇప్పుడే కాల్ చేయండి"),
    Entry("footer.treatments", "చికిత్సలు"),
    Entry("footer.book_now", "ఇప్పుడే బుక్ చేయండి"),
    Entry("footer.address", "చిరునామా"),
    Entry("footer.phone", "ఫోన్"),
    Entry("footer.timings", "సమయాలు"),
    Entry("footer.directions", "దిశలు పొందండి"),
    Entry("testimonials.title", "మా రోగులు ఏమి చెబుతున్నారు"),
    Entry("testimonials.subtitle", "వారి ఆరోగ్య సంరక్షణ అవసరాలతో మమ్మల్ని విశ్వసించే మా విలువైన రోగుల నిజమైన అనుభవాలు")
  ]

  const Hindi: Table := [
    Entry("clinic.name", "अद्वैत क्लिनिक"),
    Entry("clinic.tagline", "दयालु देखभाल, उन्नत उपचार"),
    Entry("nav.home", "होम"),
    Entry("nav.doctors", "डॉक्टर"),
    Entry("nav.treatments", "उपचार"),
    Entry("nav.contact", "संपर्क"),
    Entry("hero.title", "आपका स्वास्थ्य, हमारी प्राथमिकता"),
    Entry("hero.subtitle", "आपके और आपके परिवार के लिए व्यक्तिगत ध्यान के साथ विशेषज्ञ चिकित्सा देखभाल"),
    Entry("hero.cta", "अपॉइंटमेंट बुक करें"),
    Entry("doctors.title", "हमारे विशेषज्ञ डॉक्टर"),
    Entry("doctors.reg_no", "रजिस्ट्रेशन नं."),
    Entry("doctors.timings", "समय"),
    Entry("doctors.treatments", "उपचार"),
    Entry("doctor.book_now", "अभी बुक करें"),
    Entry("treatments.title", "हमारे उपचार"),
    Entry("treatments.close", "बंद करें"),
    Entry("booking.title", "अपॉइंटमेंट बुक करें"),
    Entry("booking.select_doctor", "डॉक्टर चुनें"),
    Entry("booking.select_treatment", "उपचार चुनें"),
    Entry("booking.whatsapp", "WhatsApp से बुक करें"),
    Entry("booking.submit", "जमा करें"),
    Entry("booking.close", "बंद करें"),
    Entry("footer.call_now", "अभी कॉल करें"),
    Entry("footer.treatments", "उपचार"),
    Entry("footer.book_now", "अभी बुक करें"),
    Entry("footer.address", "पता"),
    Entry("footer.phone", "फोन"),
    Entry("footer.timings", "समय"),
    Entry("footer.directions", "दिशा पाएं"),
    Entry("testimonials.title", "हमारे मरीज़ क्या कहते हैं"),
    Entry("testimonials.subtitle", "हमारे मूल्यवान मरीज़ों के वास्तविक अनुभव जो अपनी स्वास्थ्य देखभाल की ज़रूरतों के लिए हम पर भरोसा करते हैं")
  ]

  /** Language code to its table. */
  const Translations: map<string, Table> := map["en" := English, "te" := Telugu, "hi" := Hindi]

  /**
   * Property access `table[key]`: the text of the last entry with that key (a later
   * property of an object literal overrides an earlier one of the same name), or nothing.
   */
  function Lookup(t: Table, key: string): (r: Option<string>)
    ensures r.None? <==> forall i :: 0 <= i < |t| ==> t[i].key != key
    ensures r.Some? ==>
      exists i :: 0 <= i < |t| && t[i].key == key && t[i].text == r.value && (forall j :: i < j < |t| ==> t[j].key != key)
  {
    if |t| == 0 then None
    else if t[|t| - 1].key == key then Some(t[|t| - 1].text)
    else Lookup(t[..|t| - 1], key)
  }

  /** Two tables that list the same keys in the same positions. */
  predicate SameKeys(a: Table, b: Table)
  {
    |a| == |b| && forall i :: 0 <= i < |a| ==> a[i].key == b[i].key
  }

  /** Every text of the table is non-empty. */
  predicate NonEmptyTexts(t: Table)
  {
    forall i :: 0 <= i < |t| ==> t[i].text != ""
  }

  /** Tables listing the same keys define the same keys. */
  lemma SameKeysSameDefined(a: Table, b: Table, key: string)
    requires SameKeys(a, b)
    ensures Lookup(a, key).Some? <==> Lookup(b, key).Some?
  {
  }

  /** A table without empty texts never yields an empty text. */
  lemma LookupNonEmpty(t: Table, key: string)
    requires NonEmptyTexts(t) && Lookup(t, key).Some?
    ensures Lookup(t, key).value != ""
  {
  }

  /** The codes the guard accepts: the members of `languages_supported`. */
  function Supported(c: ClinicConfig.Clinic): (r: set<string>)
    ensures forall code :: code in r <==> code in c.languagesSupported
  {
    set code | code in c.languagesSupported
  }

  /**
   * `t(key)` under language `lang`: the registered text when there is a table for `lang`
   * holding a non-empty entry for `key`; otherwise the key itself.
   */
  function Translate(lang: string, key: string): (r: string)
    ensures r == key || (lang in Translations && Lookup(Translations[lang], key) == Some(r) && r != "")
  {
    if lang !in Translations then key
    else match Lookup(Translations[lang], key)
      case Some(text) => if text != "" then text else key
      case None => key
  }

  /** A present, non-empty entry is what the lookup returns. */
  lemma TranslateFindsEntry(lang: string, key: string, text: string)
    requires lang in Translations && Lookup(Translations[lang], key) == Some(text) && text != ""
    ensures Translate(lang, key) == text
  {
  }

  /** A language without a table, a missing key or an empty entry all yield the key unchanged. */
  lemma TranslateFallsBack(lang: string, key: string)
    requires lang !in Translations || Lookup(Translations[lang], key) in {None, Some("")}
    ensures Translate(lang, key) == key
  {
  }

  /** Telugu lists exactly the English keys, in the same order. */
  lemma TeluguSharesKeys()
    ensures |English| == 31 && SameKeys(English, Telugu)
  {
  }

  /** Hindi lists exactly the English keys, in the same order. */
  lemma HindiSharesKeys()
    ensures |English| == 31 && SameKeys(English, Hindi)
  {
  }

  /** Telugu and Hindi list exactly the English (canonical) keys, in the same order. */
  lemma TablesShareKeySet()
    ensures Translations.Keys == {"en", "te", "hi"}
    ensures |English| == 31 && SameKeys(English, Telugu) && SameKeys(English, Hindi)
  {
    TeluguSharesKeys();
    HindiSharesKeys();
  }

  /** No registered text is empty, so the `||` fallback never hides an entry. */
  lemma EntriesNonEmpty()
    ensures forall lang :: lang in Translations ==> NonEmptyTexts(Translations[lang])
  {
    assert NonEmptyTexts(English) && NonEmptyTexts(Telugu) && NonEmptyTexts(Hindi);
  }

  /** Every supported language of the dataset has a table. */
  lemma SupportedLanguagesHaveTables()
    ensures Supported(ClinicConfig.ClinicData) == Translations.Keys
  {
    var s := Supported(ClinicConfig.ClinicData);
    assert ClinicConfig.ClinicData.languagesSupported == ["en", "te", "hi"];
    assert "en" in s && "te" in s && "hi" in s;
  }

  /**
   * In every supported language, every canonical key resolves to that language's own
   * non-empty text: no canonical key falls back.
   */
  lemma CanonicalKeysResolve(lang: string, key: string)
    requires lang in ClinicConfig.ClinicData.languagesSupported && Lookup(English, key).Some?
    ensures lang in Translations && Lookup(Translations[lang], key).Some?
    ensures Translate(lang, key) == Lookup(Translations[lang], key).value && Translate(lang, key) != ""
  {
    SupportedLanguagesHaveTables();
    TablesShareKeySet();
    EntriesNonEmpty();
    SameKeysSameDefined(English, Translations[lang], key);
    LookupNonEmpty(Translations[lang], key);
  }

  /** Hindi resolves the clinic name to its Hindi text. */
  lemma HindiClinicName()
    ensures Translate("hi", "clinic.name") == "अद्वैत क्लिनिक"
  {
    assert Hindi[0].key == "clinic.name";
    assert forall j :: 0 < j < |Hindi| ==> Hindi[j].key != "clinic.name";
    assert Lookup(Hindi, "clinic.name") == Some("अद्वैत क्लिनिक");
  }

  /** A key Hindi lacks, and any key in a language without a table, come back as themselves. */
  lemma HindiExamples()
    ensures Translate("hi", "nonexistent.key") == "nonexistent.key"
    ensures Translate("fr", "clinic.name") == "clinic.name"
  {
    forall j | 0 <= j < |Hindi|
      ensures Hindi[j].key != "nonexistent.key"
    {
      assert |Hindi[j].key| > 0 && (Hindi[j].key[0] != 'n' || |Hindi[j].key| != 15);
    }
    assert Lookup(Hindi, "nonexistent.key") == None;
  }

  /** The language provider: the current code over a shared storage area. */
  class LanguageProvider {
    const config: ClinicConfig.Clinic
    const storage: Storage.LocalStorage
    var current: string

    /** The provider's current code together with the storage contents. */
    function Snapshot(): Preference.Selection
      reads this, storage
    {
      Preference.Selection(current, storage.entries)
    }

    /** Mounting starts from the configured default language. */
    constructor (config: ClinicConfig.Clinic, storage: Storage.LocalStorage)
      ensures this.config == config && this.storage == storage
      ensures current == config.defaultLanguage
    {
      this.config := config;
      this.storage := storage;
      current := config.defaultLanguage;
    }

    /** `setLanguage`: a supported code becomes current and is saved; anything else is ignored. */
    method SetLanguage(lang: string)
      modifies this, storage
      ensures Snapshot() == Preference.Choose(old(Snapshot()), LanguageSlot, lang, Supported(config))
    {
      if lang in config.languagesSupported {
        current := lang;
        storage.SetItem(LanguageSlot, lang);
      }
    }

    /** The mount effect: adopt the saved code only if it is non-empty and supported. */
    method RestoreSaved()
      modifies this
      ensures Snapshot() == Preference.Restore(old(Snapshot()), LanguageSlot, Supported(config))
    {
      var saved := storage.GetItem(LanguageSlot);
      if saved.Some? && saved.value != "" && saved.value in config.languagesSupported {
        current := saved.value;
      }
    }

    /** `t(key)` in the current language. */
    function T(key: string): (r: string)
      reads this
      ensures r == key || (current in Translations && Lookup(Translations[current], key) == Some(r))
    {
      Translate(current, key)
    }

    /** `availableLanguages`: the configured list, in its order. */
    function AvailableLanguages(): (r: seq<string>)
      ensures r == config.languagesSupported
      ensures forall code :: code in r <==> code in Supported(config)
    {
      config.languagesSupported
    }
  }

  /**
   * Choosing Telugu and reloading over the same storage resumes in Telugu, while a fresh
   * start over empty storage is in the default language.
   */
  method ReloadResumesChoice() returns (first: string, resumed: string)
    ensures first == "en" && resumed == "te"
  {
    var store := new Storage.LocalStorage(map[]);
    var firstVisit := new LanguageProvider(ClinicConfig.ClinicData, store);
    firstVisit.RestoreSaved();
    first := firstVisit.current;
    firstVisit.SetLanguage("te");
    var reloaded := new LanguageProvider(ClinicConfig.ClinicData, store);
    reloaded.RestoreSaved();
    resumed := reloaded.current;
  }
}
