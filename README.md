# Clinic site core, modelled in Dafny

A model of the behaviour underneath the markup of a single-page clinic website
(nramu-digital-services/demo-clinic): the clinic dataset and its invariants, language
selection with translation lookup, theme selection with style-token publication, the
booking form's logic, the testimonial carousel's index arithmetic, the treatments listing,
the page's modal routing and the search-engine structured data.

One module per source file, plus three small shared ones:

| file | module | models |
|---|---|---|
| `clinic_config.dfy` | `ClinicConfig` | `src/config/clinicConfig.ts`: schema datatypes, the `ClinicData` literal, `WellFormed` |
| `storage.dfy` | `Storage` | browser `localStorage` as a string map (`LocalStorage` class) |
| `preference.dfy` | `Preference` | the guarded one-slot selection machine both providers implement, as functions |
| `language.dfy` | `Language` | `src/contexts/LanguageContext.tsx`: tables, `Translate`, `LanguageProvider` class |
| `theme.dfy` | `ThemeSelection` | `src/contexts/ThemeContext.tsx`: guard, `Publish`, `ThemeProvider` class |
| `booking.dfy` | `Booking` | `src/components/BookingModal.tsx`: form record, validity, flattening, digits, submission, `BookingForm` class |
| `testimonials.dfy` | `Testimonials` | `src/components/ui/testimonial.tsx`: ring arithmetic, z-order, `Carousel` class |
| `treatments.dfy` | `TreatmentsListing` | `src/components/TreatmentsModal.tsx`: `treatmentsToShow` |
| `app_shell.dfy` | `AppShell` | `src/App.tsx`: the `App` class with its three state fields |
| `seo.dfy` | `Seo` | `src/components/SEOHead.tsx`: structured data, title, verification tag |
| `wrappers.dfy` | `Wrappers` | `Option` for `null`/`undefined` |

State that the source changes in place (the two providers' current selection, the storage
area, the root style, the booking form, the carousel index, the page's flags) lives in
classes whose methods are specified against pure functions of the old state
(`Snapshot() == Preference.Choose(old(Snapshot()), ...)`, `root.properties ==
Publish(old(root.properties), ...)`); the properties are proved as lemmas about those
functions. The pure parts (lookup, flattening, filtering, record building) are functions.

The model follows the code. The code does
not guard against unavailable storage, so no swallowing is modelled. A lookup in a language
without a table returns the key (optional chaining) rather than being undefined.

The exceptions are the two defects under "## Findings". Each is modelled as written
(`ThemeSelection.AllowedAsWritten`, `AppShell.App.HandleBookingClickAsWritten`). The members the
rest of the model uses implement the corrected behaviour instead (for the theme guard: only keys of the theme map
are accepted): `ThemeSelection.ThemeProvider.SetTheme` and
`ThemeSelection.ThemeProvider.RestoreSaved` accept only keys of the theme map, and
`AppShell.App.HandleBookingClick` opens the booking form on the clicked doctor.

## Model

| member | source | states |
|---|---|---|
| `ClinicConfig.WellFormed` | src/config/clinicConfig.ts:49-174 | what the consumers rely on: the default language is supported, the configured and demo themes exist and have six non-empty tokens, the first branch has a phone, ids are unique |
| `ClinicConfig.ClinicDataWellFormed` | src/config/clinicConfig.ts:49-174 | the dataset's default language is supported, its theme and every demo theme are keys of the theme map, every theme has six non-empty tokens, the first branch has a first phone, branch and doctor ids are unique; the defaults are "en" and "trust-light" |
| `Storage.Lookup` | src/contexts/LanguageContext.tsx:142 | `getItem` finds a value exactly when the key was stored, and returns the stored value |
| `Storage.SaveThenLoad` | src/contexts/LanguageContext.tsx:133 | a saved value is what a later load of the same key returns |
| `Storage.SaveLeavesOtherKeys` | src/contexts/ThemeContext.tsx:31 | saving under one key never changes what another key loads |
| `Storage.LocalStorage.GetItem` | src/contexts/ThemeContext.tsx:36 | reads the entry for the key, or nothing |
| `Storage.LocalStorage.SetItem` | src/contexts/LanguageContext.tsx:133 | the entry for the key becomes the value, all others kept |
| `Preference.Choose` | src/contexts/LanguageContext.tsx:130-135 | an allowed candidate becomes current and is stored under the slot; a disallowed one leaves state and storage unchanged |
| `Preference.Restore` | src/contexts/LanguageContext.tsx:141-146 | startup adopts the saved value exactly when it is present, non-empty and allowed; storage is never written |
| `Preference.ChooseIdempotent` | src/contexts/LanguageContext.tsx:130-135 | setting the same value twice leaves the same state as setting it once |
| `Preference.ChooseKeepsAllowed` | src/contexts/ThemeContext.tsx:28-33 | the setter never makes a disallowed value current |
| `Preference.ChooseLeavesOtherSlots` | src/contexts/ThemeContext.tsx:31 | a setter writes only its own storage key, so language and theme choices never disturb each other |
| `Preference.RestoreKeepsAllowed` | src/contexts/ThemeContext.tsx:35-40 | the restore never makes a disallowed value current |
| `Preference.RestoreFreshStore` | src/contexts/LanguageContext.tsx:128 | with nothing saved, the initial value stays |
| `Preference.ChooseThenReload` | src/contexts/LanguageContext.tsx:130-146 | after choosing an allowed value, a restart over the same storage resumes with that value |
| `Language.Supported` | src/contexts/LanguageContext.tsx:131 | the accepted codes are exactly the members of `languages_supported` |
| `Language.Lookup` | src/contexts/LanguageContext.tsx:138 | property access on a table: nothing exactly when no entry has the key; otherwise the text of an entry with the key after which no entry has it |
| `Language.SameKeysSameDefined` | src/contexts/LanguageContext.tsx:21-121 | tables listing the same keys define the same keys |
| `Language.LookupNonEmpty` | src/contexts/LanguageContext.tsx:138 | a table without empty texts never yields an empty text |
| `Language.Translate` | src/contexts/LanguageContext.tsx:137-139 | the result is either the key itself or the non-empty text registered for that key in that language |
| `Language.TranslateFindsEntry` | src/contexts/LanguageContext.tsx:138 | a present, non-empty entry is returned |
| `Language.TranslateFallsBack` | src/contexts/LanguageContext.tsx:138 | a language without a table, a missing key or an empty entry yields exactly the key |
| `Language.TeluguSharesKeys` | src/contexts/LanguageContext.tsx:22-87 | te lists exactly the 31 keys of en, in the same order |
| `Language.HindiSharesKeys` | src/contexts/LanguageContext.tsx:22-120 | hi lists exactly the 31 keys of en, in the same order |
| `Language.TablesShareKeySet` | src/contexts/LanguageContext.tsx:21-121 | there are tables for en, te and hi; en has 31 keys, and te and hi list exactly the same keys in the same order |
| `Language.EntriesNonEmpty` | src/contexts/LanguageContext.tsx:22-120 | no registered text is empty |
| `Language.SupportedLanguagesHaveTables` | src/config/clinicConfig.ts:54 | the supported codes are exactly the languages that have tables |
| `Language.CanonicalKeysResolve` | src/contexts/LanguageContext.tsx:137-139 | in every supported language every canonical key resolves to that language's non-empty text, never to the fallback |
| `Language.HindiClinicName` | src/contexts/LanguageContext.tsx:89 | hi resolves "clinic.name" to "अद्वैत क्लिनिक" |
| `Language.HindiExamples` | src/contexts/LanguageContext.tsx:88-120 | the key "nonexistent.key", absent from hi, comes back unchanged in hi, and so does any key in a language without a table ("fr") |
| `Language.LanguageProvider.constructor` | src/contexts/LanguageContext.tsx:128 | the initial language is the configured default |
| `Language.LanguageProvider.SetLanguage` | src/contexts/LanguageContext.tsx:130-135 | the provider and storage move exactly as `Preference.Choose` over the supported codes and the "clinic-language" key |
| `Language.LanguageProvider.RestoreSaved` | src/contexts/LanguageContext.tsx:141-146 | the provider moves exactly as `Preference.Restore` over the supported codes |
| `Language.LanguageProvider.T` | src/contexts/LanguageContext.tsx:137-139 | `t(key)` in the current language: the key or the current language's entry for it |
| `Language.LanguageProvider.AvailableLanguages` | src/contexts/LanguageContext.tsx:152 | exactly the configured `languages_supported` list, in its order; its members are the accepted codes |
| `Language.ReloadResumesChoice` | src/contexts/LanguageContext.tsx:128-146 | a first visit is in "en"; after choosing "te", a reload over the same storage is in "te" |
| `ThemeSelection.Publish` | src/contexts/ThemeContext.tsx:42-52 | the six writes add exactly the six token properties to whatever the style held |
| `ThemeSelection.PublishedTheme` | src/contexts/ThemeContext.tsx:46-51 | a theme can be read back exactly when all six properties are present |
| `ThemeSelection.PublishIsTotal` | src/contexts/ThemeContext.tsx:42-52 | after publication the six properties describe exactly the published theme, whatever was there before: no mixture of two themes |
| `ThemeSelection.PublishOverridesEarlier` | src/contexts/ThemeContext.tsx:42-52 | a later publication replaces every token of an earlier one |
| `ThemeSelection.PublishLeavesOtherProperties` | src/contexts/ThemeContext.tsx:44-51 | publication touches only the six token properties |
| `ThemeSelection.Allowed` | src/contexts/ThemeContext.tsx:29 | corrected (second Findings row): the accepted names are exactly the keys of the theme map |
| `ThemeSelection.AllowedAsWritten` | src/contexts/ThemeContext.tsx:29 | the truthiness guard as written accepts every theme key and more |
| `ThemeSelection.AsWrittenGuardAdmitsNonTheme` | src/contexts/ThemeContext.tsx:29 | as written, "constructor" passes the guard and becomes current although it is no theme |
| `ThemeSelection.GuardKeepsThemeKnown` | src/contexts/ThemeContext.tsx:28-40 | with the key guard, setter and restore keep the current name a key of the theme map |
| `ThemeSelection.UnlistedThemeAccepted` | src/contexts/ThemeContext.tsx:29 | a theme of the map is accepted even when the demo list does not offer it |
| `ThemeSelection.DemoThemesSettable` | src/contexts/ThemeContext.tsx:58 | in a well-formed dataset every theme the picker offers is accepted and stored |
| `ThemeSelection.UnknownThemeIgnored` | src/contexts/ThemeContext.tsx:29 | "unknown-theme" changes neither the current theme nor storage |
| `ThemeSelection.DocumentStyle.SetProperty` | src/contexts/ThemeContext.tsx:46 | one `setProperty` write |
| `ThemeSelection.ThemeProvider.constructor` | src/contexts/ThemeContext.tsx:26 | the initial theme is the configured `color_theme` |
| `ThemeSelection.ThemeProvider.SetTheme` | src/contexts/ThemeContext.tsx:28-33 | corrected guard (second Findings row): the provider and storage move exactly as `Preference.Choose` over the theme keys and the "clinic-theme" key |
| `ThemeSelection.ThemeProvider.RestoreSaved` | src/contexts/ThemeContext.tsx:35-40 | corrected guard (second Findings row): the provider moves exactly as `Preference.Restore` over the theme keys |
| `ThemeSelection.ThemeProvider.PublishTokens` | src/contexts/ThemeContext.tsx:42-52 | the root style becomes `Publish` of the current theme's record, and reads back as that record |
| `ThemeSelection.ThemeProvider.CurrentTheme` | src/contexts/ThemeContext.tsx:56 | `theme` is the record of the current name, with six non-empty tokens in a well-formed dataset |
| `ThemeSelection.ThemeProvider.AvailableThemes` | src/contexts/ThemeContext.tsx:58 | exactly the configured demo list, in its order, each entry accepted by the setter in a well-formed dataset |
| `Booking.WithInput` | src/components/BookingModal.tsx:42-48 | the named field takes the input (the consent box `value === 'true'`), every other field is unchanged |
| `Booking.IsFormValid` | src/components/BookingModal.tsx:155 | the form may be submitted when name and phone are non-empty and a doctor is chosen |
| `Booking.OptionalFieldsIrrelevant` | src/components/BookingModal.tsx:155 | email, date, time, notes and consent never change validity |
| `Booking.RequiredFieldsDecide` | src/components/BookingModal.tsx:155 | an empty name or phone makes the form invalid |
| `Booking.Tagged` | src/components/BookingModal.tsx:158 | each item of a category, in order, tagged with the category label |
| `Booking.Flatten` | src/components/BookingModal.tsx:157-159 | the flattened list has as many entries as the categories have items |
| `Booking.AllTreatments` | src/components/BookingModal.tsx:157-159 | empty without a doctor; otherwise one entry per treatment item of the doctor |
| `Booking.OffsetStep` | src/components/BookingModal.tsx:157 | each category's block starts where the previous one ends |
| `Booking.FlattenAt` | src/components/BookingModal.tsx:157-159 | item j of category i is at offset(i) + j and carries category i's label: category order, then item order |
| `Booking.FlattenSource` | src/components/BookingModal.tsx:157-159 | every entry is one item of one category, tagged with that category |
| `Booking.JeevithaTreatmentCount` | src/config/clinicConfig.ts:109-130 | Dr. Jeevitha offers fifteen treatment choices; with no doctor chosen the list is empty |
| `Booking.FindDoctor` | src/components/BookingModal.tsx:269 | the doctor found has the id and is in the list; none is found only when no doctor has the id |
| `Booking.FindDoctorFirstMatch` | src/components/BookingModal.tsx:269 | the first doctor with an id is the one found |
| `Booking.FindDoctorInBranch` | src/config/clinicConfig.ts:92-171 | with unique ids, selecting any doctor's id selects exactly that doctor |
| `Booking.DigitsOnly` | src/components/BookingModal.tsx:107 | the result holds only ASCII digits, each digit as often as in the input, and no other character |
| `Booking.DigitsOnlySingle` | src/components/BookingModal.tsx:51 | a single character is kept exactly when it is a digit; with `DigitsOnlyAppend` this fixes the filter on every string |
| `Booking.DigitsOnlyAppend` | src/components/BookingModal.tsx:51 | filtering distributes over concatenation, so digits keep their order |
| `Booking.DigitsOnlyKeepsDigits` | src/components/BookingModal.tsx:107 | a string of digits passes unchanged |
| `Booking.DigitsOnlyIdempotent` | src/components/BookingModal.tsx:107 | filtering twice is filtering once |
| `Booking.OrDefault` | src/components/BookingModal.tsx:82 | JavaScript `v \|\| d` on strings: v when non-empty, else d |
| `Booking.BuildSubmission` | src/components/BookingModal.tsx:78-89 | name and phone copied; email, doctor, treatment, date, time and notes default to "Not provided", "Any available doctor", "General consultation", "Not specified", "Any time", "None"; consent as "Yes"/"No" |
| `Booking.SubmissionComplete` | src/components/BookingModal.tsx:74-89 | a record built from a valid form has no empty field |
| `Booking.SubmissionDefaults` | src/components/BookingModal.tsx:82-88 | a form with only name and phone gets every default |
| `Booking.BookingForm.constructor` | src/components/BookingModal.tsx:25-35 | the doctor comes from the prop at mount; treatment and form start empty |
| `Booking.BookingForm.HandleInputChange` | src/components/BookingModal.tsx:42-48 | the form becomes `WithInput` of the old form; doctor and treatment kept |
| `Booking.BookingForm.SelectDoctorById` | src/components/BookingModal.tsx:268-272 | the doctor becomes `FindDoctor` of the id and the treatment is cleared |
| `Booking.BookingForm.SelectTreatment` | src/components/BookingModal.tsx:296 | only the selected treatment changes |
| `Booking.BookingForm.SyncSelectedDoctor` | src/components/BookingModal.tsx:25 | corrected (first Findings row): the doctor becomes the prop's doctor and the treatment is cleared |
| `Booking.BookingForm.HandleSubmit` | src/components/BookingModal.tsx:73-149 | invalid form: nothing; caught error: form kept; success: the `submissionData` record, the digits-only first phone when consent was given, form and treatment reset, doctor kept |
| `Testimonials.Next` | src/components/ui/testimonial.tsx:61-63 | the next index stays in [0, n) |
| `Testimonials.Prev` | src/components/ui/testimonial.tsx:65-67 | the previous index stays in [0, n) |
| `Testimonials.NextCases` | src/components/ui/testimonial.tsx:62 | next adds one, wrapping from the last slide to the first |
| `Testimonials.PrevCases` | src/components/ui/testimonial.tsx:66 | prev subtracts one, wrapping from the first slide to the last |
| `Testimonials.PrevUndoesNext` | src/components/ui/testimonial.tsx:61-67 | prev after next returns to the same index |
| `Testimonials.NextUndoesPrev` | src/components/ui/testimonial.tsx:61-67 | next after prev returns to the same index |
| `Testimonials.AdvanceClimbs` | src/components/ui/testimonial.tsx:62 | steps that do not pass the last slide add one each |
| `Testimonials.AdvanceAdds` | src/components/ui/testimonial.tsx:62 | j steps then k steps are j + k steps |
| `Testimonials.FullTurn` | src/components/ui/testimonial.tsx:62 | n successive next steps return to the starting index |
| `Testimonials.IsActive` | src/components/ui/testimonial.tsx:75 | a slide is active exactly when its index is the active index |
| `Testimonials.ZIndex` | src/components/ui/testimonial.tsx:94 | the stacking order: n for the active slide, n minus the distance to the active index otherwise |
| `Testimonials.ZIndexOrder` | src/components/ui/testimonial.tsx:94 | every slide's z-order is at least 1 and the active slide's is strictly the highest |
| `Testimonials.Carousel.constructor` | src/components/ui/testimonial.tsx:59 | the first slide is active |
| `Testimonials.Carousel.HandleNext` | src/components/ui/testimonial.tsx:61-63 | the index becomes `Next` of the old one and stays valid |
| `Testimonials.Carousel.HandlePrev` | src/components/ui/testimonial.tsx:65-67 | the index becomes `Prev` of the old one and stays valid |
| `Testimonials.Carousel.ZIndexOf` | src/components/ui/testimonial.tsx:75-94 | each slide's z-order is between 1 and n, and equals n exactly for the active slide |
| `TreatmentsListing.Plain` | src/components/TreatmentsModal.tsx:20 | a doctor's own categories, unchanged and untagged |
| `TreatmentsListing.TaggedWith` | src/components/TreatmentsModal.tsx:22-25 | each category of a doctor, unchanged, tagged with the doctor's name |
| `TreatmentsListing.AllDoctors` | src/components/TreatmentsModal.tsx:21-26 | as many entries as the doctors have categories in total |
| `TreatmentsListing.TreatmentsToShow` | src/components/TreatmentsModal.tsx:17-26 | closed: nothing; with a doctor: exactly that doctor's categories; without: one entry per category of the branch's doctors |
| `TreatmentsListing.CategoryOffsetStep` | src/components/TreatmentsModal.tsx:21 | each doctor's block follows the previous doctor's |
| `TreatmentsListing.AllDoctorsAt` | src/components/TreatmentsModal.tsx:21-26 | category j of doctor i is at offset(i) + j, unchanged, tagged with doctor i's name: doctor order, then category order |
| `TreatmentsListing.AllDoctorsSource` | src/components/TreatmentsModal.tsx:21-26 | every entry is one category of one doctor, tagged with that doctor's name |
| `TreatmentsListing.ShownDoctorName` | src/components/TreatmentsModal.tsx:66 | a doctor label appears only without a specific doctor and only when the tag is non-empty |
| `TreatmentsListing.NoLabelForOneDoctor` | src/components/TreatmentsModal.tsx:66 | for a specific doctor no category shows a doctor label |
| `TreatmentsListing.LabelForAllDoctors` | src/components/TreatmentsModal.tsx:21-26 | without a doctor, entry k is category j of doctor i, placed in doctor i's block, and shows doctor i's own name |
| `TreatmentsListing.ClinicListing` | src/components/TreatmentsModal.tsx:20-26 | for the dataset: General Medicine and Women's Health of Dr. Jeevitha, then Surgical Treatments of Dr. P.M. Raj |
| `Seo.Specialties` | src/components/SEOHead.tsx:29 | a doctor's category labels, in order |
| `Seo.Physicians` | src/components/SEOHead.tsx:26-30 | one physician per doctor, in order, with the doctor's name and labels |
| `Seo.StructuredData` | src/components/SEOHead.tsx:7-31 | name and street address from the branch, telephone the phone list unchanged, one physician per doctor in order |
| `Seo.ClinicPhysicians` | src/components/SEOHead.tsx:26-30 | for the dataset: Dr. Jeevitha with two labels, then Dr. P.M. Raj with one |
| `Seo.PageTitle` | src/components/SEOHead.tsx:35 | the branch name followed by " - Expert Medical Care in Hyderabad" |
| `Seo.IndexFrom` | src/components/SEOHead.tsx:60 | the first occurrence of the pattern at or after a position, or none |
| `Seo.RemoveFirst` | src/components/SEOHead.tsx:60 | string `replace(pat, '')`: the first occurrence removed, or the string unchanged |
| `Seo.EmitsVerification` | src/components/SEOHead.tsx:57 | a tag is emitted when it is non-empty and not the placeholder "google-site-verification=XYZ..." |
| `Seo.VerificationContent` | src/components/SEOHead.tsx:60 | the tag with the first occurrence of the prefix removed |
| `Seo.VerificationMeta` | src/components/SEOHead.tsx:57-62 | a verification tag is emitted exactly when the tag is non-empty and not the placeholder |
| `Seo.StripsLeadingPrefix` | src/components/SEOHead.tsx:60 | "google-site-verification=" + token yields exactly token |
| `Seo.BareTokenKept` | src/components/SEOHead.tsx:60 | a tag without the prefix is used unchanged |
| `Seo.StripsOnlyFirst` | src/components/SEOHead.tsx:60 | only the first occurrence of the prefix is removed |
| `Seo.ClinicEmitsNoVerification` | src/config/clinicConfig.ts:51 | the dataset's placeholder tag emits no verification meta |
| `AppShell.App.constructor` | src/App.tsx:16-18 | both modals closed, no doctor selected; the booking form mounted with no doctor |
| `AppShell.App.HandleBookingClickAsWritten` | src/App.tsx:20-23 | selects the doctor (or none) and opens the booking modal, treatments flag kept, the mounted form's doctor unchanged |
| `AppShell.App.HandleBookingClick` | src/App.tsx:20-23 | corrected handler (first Findings row): as above, and the booking form opens on that doctor |
| `AppShell.App.HandleTreatmentsClick` | src/App.tsx:25-34 | both branches select the doctor (or none) and open the treatments modal; booking flag kept |
| `AppShell.App.CloseTreatments` | src/App.tsx:62 | clears only the treatments flag |
| `AppShell.App.CloseBooking` | src/App.tsx:68 | clears only the booking flag |
| `AppShell.App.SubmitBooking` | src/components/BookingModal.tsx:143 | a successful submit closes the booking modal; otherwise the flag is kept |
| `AppShell.App.TreatmentsShown` | src/App.tsx:59-63 | the treatments modal renders nothing when closed and all categories when no doctor is selected |
| `AppShell.BookNowAsWritten` | src/components/BookingModal.tsx:25 | as written, "Book Now" on a doctor opens the modal with no doctor, so no form is valid |
| `AppShell.BookNow` | src/App.tsx:20-23 | with the intended handler the modal opens on that doctor, so name and phone suffice |

## Left out

- View markup, styling and the pure view components; the React context machinery and the error thrown when a provider is missing.
- Storage unavailability: the source writes and reads without a guard, so the model has no "disabled storage" mode.
- DOM effects other than the six token writes: `document.title`, the JSON-LD `<script>` and its cleanup, and the verification meta are modelled as values (`PageTitle`, `StructuredData`, `VerificationMeta`), not as document changes. `JSON.stringify` is not modelled.
- The description meta (src/components/SEOHead.tsx:38-48) is not modelled: it writes one fixed text into an existing or a new meta element, with no decision that depends on the clinic's data.
- Effect scheduling: the publish effect runs whenever the current theme changes; the model calls `PublishTokens` explicitly.
- Network and navigation: the POST to the spreadsheet endpoint is a parameter (`postSucceeds`) of `HandleSubmit`; `alert`, `console.error`, `window.open`, the one-second `setTimeout`, `tel:` links and the WhatsApp message text with `encodeURIComponent` are not modelled. `handleWhatsAppBooking` and `handleDirectCall` are never wired to a control; only their digits-only phone is modelled.
- Clock: the submission timestamp and the date picker's minimum date.
- Animation and randomness: framer-motion values, `randomRotate` and the five-second autoplay.
- Testimonials.Carousel.constructor: requires at least one slide, because with none the component reads a field of `testimonials[0]` and fails; the testimonial texts themselves are not modelled.
- Language.Translate: keys that name properties every JavaScript object inherits (such as "constructor") return a non-string in the source; the model treats every key as absent unless registered.
- The booking modal's `selectedDoctor || undefined` prop: `null` and `undefined` are the same `None` in the model.
- ThemeSelection.ThemeProvider.constructor: requires the configured theme to exist, because the publish effect reads its tokens on mount.

## Findings

| source | as written | input that shows it | evidently intended | confidence | as-written member | corrected member |
|---|---|---|---|---|---|---|
| src/components/BookingModal.tsx:25 | the modal's doctor state is initialised from its prop only when `App` first mounts it, with no doctor; later props are ignored | "Book Now" on Dr. Jeevitha's card opens the modal with no doctor chosen and the form cannot be submitted | the modal opens on the doctor it was opened for | not executed; high | AppShell.BookNowAsWritten | AppShell.App.HandleBookingClick |
| src/contexts/ThemeContext.tsx:29 | the guard `themes[themeName]` is a truthiness test, true for names inherited from `Object.prototype` | `setTheme("constructor")`, or "constructor" saved under "clinic-theme", becomes the current theme although no such theme exists | only keys of the theme map are accepted | not executed; high | ThemeSelection.AsWrittenGuardAdmitsNonTheme | ThemeSelection.GuardKeepsThemeKnown |
