# Clinical documentation app — a Dafny model

This project models the core of a small clinical-documentation web app. Nurses use it to write two kinds of record:

- **Nursing evaluations**, of two types:
  - the short-stay surgical patient evaluation;
  - the ambulatory major surgery (CMA) evaluation.
- **Surgical reports**: a two-page form prefilled from a fixed catalogue of patients and surgeries. It has a vital-sign table and a medication table.

The model covers:

- the records and their types;
- the catalogues and their `find`/`filter` lookups;
- every change handler of the two evaluation forms, as pure update functions over the form content, driven by an event datatype;
- the surgical report editor (pages, edits, the two save buttons) as a class;
- the vital-sign and medication tables;
- the two pickers (patient and nurse, patient and surgery) as classes;
- the application's top-level state as a class whose methods are the handlers of `App.tsx`;
- saving and deleting in the stored lists;
- the vital-sign range check and its colours.

The invariants the handlers keep are proved over any sequence of events:

- a checked "no alteration" box never sits beside a ticked symptom;
- mutually exclusive boxes are never both ticked;
- the ward readings of a report are never lost;
- the nurse name changes only through its own input.

Two places where the code falls short of what its design describes are reproduced as written, with lemmas that exhibit them:

- In the CMA form, the language-barrier radio does not resynchronise "no alteration" (`CmaForm.LanguageBarrierStaleness`).
- In the short-stay form, some "no alteration"/"autonomous" boxes can never come back on (`ShortStayForm.NeverBackToTrue`).

Two inputs come from outside the model:

- **The clock.** `Date.now()`, `new Date().toISOString()`, `getHours()` and `getMinutes()` are parameters (`nowMillis`, `isoNow`, `hours`, `minutes`).
- **The PDF generator.** Its outcome is the argument of the step that ends a save-and-print.

## Model

| member | source | states |
|---|---|---|
| Strings.TrimStart | src/components/CMAEvaluationForm.tsx:134 | the result is a suffix of the input with no leading whitespace, and is empty exactly when the input is all whitespace |
| Strings.TrimEnd | src/components/CMAEvaluationForm.tsx:134 | the result is a prefix of the input with no trailing whitespace, and is empty exactly when the input is all whitespace |
| Strings.TrimEmptyIffBlank | src/components/CMAEvaluationForm.tsx:134-137 | `trim()` gives "" exactly when the name is empty or only whitespace, which is the condition that refuses a submit |
| Strings.Digit | src/components/VitalConstantsTable.tsx:16 | the character is a decimal digit whose value is the number |
| Strings.DigitValue | src/components/VitalConstantsTable.tsx:16 | a digit character has a value below ten |
| Strings.DecimalString | src/components/VitalConstantsTable.tsx:16 | `String(n)` is all digits, reads back as n, and has no leading zero |
| Strings.PadStartZero | src/components/VitalConstantsTable.tsx:16 | `padStart(w, '0')` has length max(|s|, w), ends with s and is zeros before it |
| Strings.TwoDigits | src/components/VitalConstantsTable.tsx:16 | a clock field below 100 is two digits that read back as the field |
| Strings.TwoDigitsIsPadStart | src/components/VitalConstantsTable.tsx:16 | the two-digit field is exactly `String(n).padStart(2, '0')` |
| Strings.ClockTime | src/components/VitalConstantsTable.tsx:15-16 | the `HH:MM` time is five characters, a colon in the middle, digits elsewhere, hours before and minutes after |
| Strings.ClockTimeRoundTrip | src/components/VitalConstantsTable.tsx:15-16 | reading an `HH:MM` time back gives the hours and minutes it was built from |
| Strings.StampedId | src/components/VitalConstantsTable.tsx:19 | `<prefix>-<millis>` starts with the prefix and a dash, followed by digits without a leading zero that read back as the time |
| KeyedLists.Find | src/data/mockSurgicalData.ts:201-203 | `find` by id gives nothing exactly when no element has the id, and otherwise the element at the first index with it |
| KeyedLists.FindIndex | src/App.tsx:237 | `findIndex` is -1 exactly when no element has the id, and otherwise the first index with it |
| KeyedLists.Filter | src/data/mockSurgicalData.ts:211-213 | `filter` keeps exactly the elements satisfying the predicate and is no longer than its input |
| KeyedLists.FilterAppend | src/data/mockSurgicalData.ts:211-213 | filtering distributes over concatenation, so the order of the kept elements is the input's |
| KeyedLists.FilterUnique | src/data/mockSurgicalData.ts:211-213 | when one element alone satisfies the predicate, the filter is exactly that element |
| KeyedLists.RemoveById | src/App.tsx:101-103 | removing by id keeps exactly the elements with another id |
| KeyedLists.RemoveByIdAppend | src/App.tsx:101-103 | removal by id distributes over concatenation |
| KeyedLists.MapWhere | src/App.tsx:241-243 | mapping by id rewrites exactly the elements with that id, position by position |
| VitalSigns.VitalRange | src/utils/vitalConstantsValidation.ts:2-8 | every normal band has its minimum below its maximum |
| VitalSigns.Validate | src/utils/vitalConstantsValidation.ts:12-30 | normal exactly inside the band; outside it, danger exactly when the reading is far out by the kind's rule, and warning otherwise |
| VitalSigns.SystolicBands | src/utils/vitalConstantsValidation.ts:20 | systolic pressure: normal in [90,140], danger below 80 or above 160, warning between |
| VitalSigns.DiastolicBands | src/utils/vitalConstantsValidation.ts:21 | diastolic pressure: normal in [60,90], danger below 50 or above 100, warning between |
| VitalSigns.HeartRateBands | src/utils/vitalConstantsValidation.ts:22 | heart rate: normal in [60,100], danger below 50 or above 120, warning between |
| VitalSigns.SaturationBands | src/utils/vitalConstantsValidation.ts:23 | saturation is a danger only below 90; 90 to 95 and readings above 100 are warnings |
| VitalSigns.PainScaleBands | src/utils/vitalConstantsValidation.ts:24 | pain scale: normal in [0,10], a danger above 10, a warning below 0 |
| VitalSigns.ValidationColor | src/utils/vitalConstantsValidation.ts:32-38 | each status is drawn in a `#rrggbb` colour |
| VitalSigns.ColorsDistinct | src/utils/vitalConstantsValidation.ts:32-38 | two statuses share a colour exactly when they are the same status |
| Evaluations.Emotions.Set | src/types/evaluation.ts:264-278 | one emotional-state box takes the new value and every other keeps its own |
| Evaluations.Mobilization.Toggle | src/components/CMAEvaluationForm.tsx:535-611 | the box takes the value; ticking "autonomous" clears the three help boxes and ticking a help box clears "autonomous"; the other boxes are kept; the exclusivity between "autonomous" and the help boxes is preserved; only the "autonomous" box can set "autonomous" |
| Evaluations.Comfort.Set | src/components/CMAEvaluationForm.tsx:1130-1165 | one pain-type box takes the value; the others, the pain flag and the pain texts are kept |
| Evaluations.PresurgicalChecklist.SetBinary | src/components/CMAEvaluationForm.tsx:1284-1840 | one yes/no checklist item takes the answer; every other item and both detail texts are kept |
| Evaluations.PresurgicalChecklist.SetTernary | src/components/CMAEvaluationForm.tsx:1284-1840 | one yes/no/not-applicable item takes the answer; every other item and both detail texts are kept |
| Evaluations.NursingEvaluation.Base | src/types/evaluation.ts:5-12 | the common part's evaluation type tells the two variants apart, and the id is the record's |
| Evaluations.BaseTellsVariantsApart | src/types/evaluation.ts:317 | two records with the same evaluation type are the same variant |
| Evaluations.EvaluationTypesListed | src/types/evaluation.ts:319-330 | the type list offers the short-stay type then the CMA type |
| Evaluations.KeptOrFresh | src/components/CMAEvaluationForm.tsx:141-142 | `kept \|\| generated`: the kept value when present and non-empty, the generated one otherwise |
| EvaluationCatalogue.GetPatientById | src/data/mockEvaluationData.ts:147-149 | a patient is found only under its own id and only from the catalogue; nothing is found exactly when no patient has the id |
| EvaluationCatalogue.GetNurseById | src/data/mockEvaluationData.ts:151-153 | a nurse is found only under its own id and only from the catalogue; nothing is found exactly when no nurse has the id |
| EvaluationCatalogue.CatalogueIdsUnique | src/data/mockEvaluationData.ts:31-145 | no two catalogue patients share an id, and no two nurses do |
| EvaluationCatalogue.LookupsFindEveryEntry | src/data/mockEvaluationData.ts:147-153 | every catalogue patient and nurse is found under its own id |
| SurgicalCatalogue.GetPatientById | src/data/mockSurgicalData.ts:201-203 | a patient is found only under its own id; nothing exactly when no patient has it; otherwise the first with it |
| SurgicalCatalogue.GetSurgeryById | src/data/mockSurgicalData.ts:206-208 | a surgery is found only under its own id; nothing exactly when no surgery has it; otherwise the first with it |
| SurgicalCatalogue.GetSurgeriesByPatientId | src/data/mockSurgicalData.ts:211-213 | the list holds exactly the catalogue surgeries of that patient |
| SurgicalCatalogue.PatientIdsUnique | src/data/mockSurgicalData.ts:4-81 | no two catalogue patients share an id |
| SurgicalCatalogue.SurgeryIdsUnique | src/data/mockSurgicalData.ts:83-175 | no two catalogue surgeries share an id |
| SurgicalCatalogue.PatientFound | src/data/mockSurgicalData.ts:201-203 | every catalogue patient is found under its own id |
| SurgicalCatalogue.SurgeryFound | src/data/mockSurgicalData.ts:206-208 | every catalogue surgery is found under its own id |
| SurgicalCatalogue.EachPatientHasOneSurgery | src/data/mockSurgicalData.ts:211-213 | each patient's surgery list is exactly the one surgery at the same position |
| SurgicalCatalogue.SurgeryOwner | src/data/mockSurgicalData.ts:83-175 | the surgery at a position belongs to the patient at that position |
| SurgicalCatalogue.SurgeriesReferToPatients | src/data/mockSurgicalData.ts:83-203 | every surgery's patient id finds a catalogue patient |
| SurgicalCatalogue.WardSeedIsPlanta | src/data/mockSurgicalData.ts:177-199 | the seed readings are all ward readings, with distinct ids |
| SurgicalReports.ChecklistHasTwelveBoxes | src/types/surgicalReport.ts:87-102 | the page-1 checklist has twelve distinct boxes and the list names every one |
| SurgicalReports.AdditionalFields.Set | src/types/surgicalReport.ts:131-138 | one additional field takes the text and every other keeps its own |
| SurgicalReports.SurgicalReport.SetChecked | src/components/SurgicalReportForm.tsx:96-101 | the box is ticked exactly when the value is true; every other box, every text, both tables and every read-only part are kept |
| SurgicalReports.SurgicalReport.SetText | src/components/SurgicalReportForm.tsx:103-108 | that text takes the value; every other text, the boxes, both tables and every read-only part are kept |
| SurgicalReports.SurgicalReport.SetVitals | src/components/SurgicalReportForm.tsx:103-108 | the vital-sign table is replaced and nothing else changes |
| SurgicalReports.SurgicalReport.SetMedication | src/components/SurgicalReportForm.tsx:103-108 | the medication table is replaced and nothing else changes |
| SurgicalReports.EditablePartsDetermine | src/types/surgicalReport.ts:59-143 | two reports with the same read-only part, boxes, texts and tables are equal, so the editable parts and the erased report describe it completely |
| VitalConstantsTable.AddNewConstant | src/components/VitalConstantsTable.tsx:14-30 | one row is appended after the existing ones: an operating-room reading, stamped `vc-<millis>`, at the clock's `HH:MM`, with the default readings |
| VitalConstantsTable.NewRowTime | src/components/VitalConstantsTable.tsx:15-16 | the new row's time is two zero-padded digits each side of a colon and reads back as the clock |
| VitalConstantsTable.RemoveConstant | src/components/VitalConstantsTable.tsx:32-34 | the rows kept are exactly those with another id |
| VitalConstantsTable.EditRow | src/components/VitalConstantsTable.tsx:36-43 | an edit keeps the id and origin; a time edit sets the time and keeps every reading; a reading edit sets that reading and keeps the rest |
| VitalConstantsTable.UpdateConstant | src/components/VitalConstantsTable.tsx:36-43 | exactly the rows with that id get the edit; every row keeps its id and origin |
| VitalConstantsTable.AddThenRemove | src/components/VitalConstantsTable.tsx:14-34 | deleting the row just added under a fresh id gives back the earlier rows |
| VitalConstantsTable.UpdateIdempotent | src/components/VitalConstantsTable.tsx:36-43 | applying the same edit twice equals applying it once |
| VitalConstantsTable.StampedIdsAreStampable | src/components/VitalConstantsTable.tsx:19 | a stamped id never has the shape of a ward seed id |
| VitalConstantsTable.AddKeepsWardRows | src/components/VitalConstantsTable.tsx:14-30 | adding keeps the table well formed and keeps the set of ward ids |
| VitalConstantsTable.DeleteKeepsWardRows | src/components/VitalConstantsTable.tsx:153-160 | deleting through a row's button (shown only on operating-room rows) keeps the table well formed and every ward id |
| VitalConstantsTable.SameKeysSameWardIds | src/components/VitalConstantsTable.tsx:36-43 | lists with the same ids and origins have the same ward ids |
| VitalConstantsTable.SameKeysApart | src/components/VitalConstantsTable.tsx:36-43 | a list with the same ids and origins as a well-formed one is well formed |
| VitalConstantsTable.EditKeepsWardRows | src/components/VitalConstantsTable.tsx:36-43 | editing keeps the table well formed and every ward id |
| VitalConstantsTable.StepKeepsWardRows | src/components/VitalConstantsTable.tsx:14-160 | any one user action keeps the table well formed and every ward id |
| VitalConstantsTable.SeedIsWellFormed | src/data/mockSurgicalData.ts:177-199 | the seed is well formed with ward ids exactly `vc-001` and `vc-002`, and so is the empty table |
| VitalConstantsTable.WardRowsNeverRemoved | src/components/VitalConstantsTable.tsx:14-160 | after any sequence of user actions the table is well formed and has the same ward ids |
| MedicationSection.AddRow | src/components/surgical-sections/MedicationSection.tsx:10-22 | one row is appended after the existing ones, stamped `med-<millis>`, at the clock's `HH:MM`, with no medication and no dose |
| MedicationSection.RemoveRow | src/components/surgical-sections/MedicationSection.tsx:24-26 | the rows kept are exactly those with another id |
| MedicationSection.EditRow | src/components/surgical-sections/MedicationSection.tsx:28-35 | the id is kept, the edited field takes the value and the other fields keep theirs |
| MedicationSection.UpdateRow | src/components/surgical-sections/MedicationSection.tsx:28-35 | exactly the rows with that id get the edit |
| MedicationSection.AddThenRemove | src/components/surgical-sections/MedicationSection.tsx:10-26 | deleting the row just added under a fresh id gives back the earlier rows |
| MedicationSection.DeleteRemovesRow | src/components/surgical-sections/MedicationSection.tsx:90-98 | every row shows a delete button, and pressing it removes the row and shortens the list |
| MedicationSection.UpdateIdempotent | src/components/surgical-sections/MedicationSection.tsx:28-35 | applying the same edit twice equals applying it once |
| CmaForm.EmptyEvaluation | src/components/CMAEvaluationForm.tsx:12-118 | the default CMA record satisfies the respiration, elimination, mobility and communication invariants, with "no alteration" on, and its preset nurse name is not blank |
| CmaForm.Erase | src/components/CMAEvaluationForm.tsx:12-118 | blanking the texts gives a record whose every text is empty, keeping the evaluation name and patient |
| CmaForm.SetText | src/components/CMAEvaluationForm.tsx:159-188 | a text input sets its text and keeps every other text and every control |
| CmaForm.ToggleRespiration | src/components/CMAEvaluationForm.tsx:189-290 | the symptom takes the value, the others are kept, and "no alteration" is on exactly when no symptom is |
| CmaForm.ToggleUrinary | src/components/CMAEvaluationForm.tsx:347-534 | the urinary item takes the value, and "no alteration" is on exactly when no urinary or intestinal item is |
| CmaForm.ToggleIntestinal | src/components/CMAEvaluationForm.tsx:347-534 | the intestinal item takes the value, and "no alteration" is on exactly when no urinary or intestinal item is |
| CmaForm.SetRest | src/components/CMAEvaluationForm.tsx:619-672 | one rest-and-sleep box takes the value and the rest of the section is kept |
| CmaForm.SetSafety | src/components/CMAEvaluationForm.tsx:673-788 | one safety box takes the value and the rest of the section is kept |
| CmaForm.ToggleEmotion | src/components/CMAEvaluationForm.tsx:800-930 | the emotion takes the value, and "no alteration" is recomputed from all emotions, consciousness, orientation and the language barrier |
| CmaForm.ChooseConsciousness | src/components/CMAEvaluationForm.tsx:935-995 | the level is set; stuporous and coma switch "no alteration" off, and alert and conscious recompute it without the level |
| CmaForm.ChooseOriented | src/components/CMAEvaluationForm.tsx:1000-1030 | orientation is set; disoriented switches "no alteration" off, and oriented recomputes it |
| CmaForm.ChooseLanguageBarrier | src/components/CMAEvaluationForm.tsx:1031-1056 | the barrier is set and "no alteration" is left as it was |
| CmaForm.LanguageBarrierStaleness | src/components/CMAEvaluationForm.tsx:1031-1056 | from a consistent communication state, choosing a language barrier leaves "no alteration" on beside the barrier, so the recomputation rule fails |
| CmaForm.LanguageBarrierOnDefaultIsStale | src/components/CMAEvaluationForm.tsx:72-83 | on the default record, choosing a barrier makes communication inconsistent |
| CmaForm.Apply | src/components/CMAEvaluationForm.tsx:189-1840 | every handler keeps the evaluation name and patient; the respiration, elimination and communication handlers re-establish their section's rule |
| CmaForm.SameTextsAgree | src/components/CMAEvaluationForm.tsx:159-1840 | records whose text fields agree return the same text for every input |
| CmaForm.ApplyTextEdit | src/components/CMAEvaluationForm.tsx:159-1840 | a text input sets its own text, keeps every other text and touches no control |
| CmaForm.RespirationFeedingEliminationControls | src/components/CMAEvaluationForm.tsx:189-534 | these controls keep the invariants, keep communication and keep every text |
| CmaForm.MobilizationRestSafetyControls | src/components/CMAEvaluationForm.tsx:535-788 | these controls keep the invariants, keep communication and keep every text |
| CmaForm.CommunicationControls | src/components/CMAEvaluationForm.tsx:789-1085 | these controls keep the other invariants and keep every text; all but the language barrier keep communication consistent |
| CmaForm.RemainingControls | src/components/CMAEvaluationForm.tsx:1086-1840 | comfort, learning and checklist controls keep the invariants, communication and every text |
| CmaForm.ControlsKeepTexts | src/components/CMAEvaluationForm.tsx:189-1840 | every control but a text input keeps the invariants and every text |
| CmaForm.ApplyConsistent | src/components/CMAEvaluationForm.tsx:159-1840 | every handler keeps the respiration, elimination and mobility invariants |
| CmaForm.ApplyCommunication | src/components/CMAEvaluationForm.tsx:789-1085 | every handler but the language-barrier radio keeps communication consistent |
| CmaForm.ApplyAllConsistent | src/components/CMAEvaluationForm.tsx:159-1840 | the invariants hold after any sequence of events |
| CmaForm.ApplyAllCommunication | src/components/CMAEvaluationForm.tsx:789-1085 | communication stays consistent through any sequence that never uses the language-barrier radio |
| CmaForm.ReachableConsistent | src/components/CMAEvaluationForm.tsx:12-1840 | every record reachable from a new form satisfies the invariants |
| CmaForm.NurseOnlyFromItsInput | src/components/CMAEvaluationForm.tsx:163-170 | the nurse name changes only through its own input |
| CmaForm.CmaFormController.constructor | src/components/CMAEvaluationForm.tsx:120-123 | the form opens on the given record's content, or on the default record |
| CmaForm.CmaFormController.Handle | src/components/CMAEvaluationForm.tsx:189-1840 | the content becomes the handler's update, and the invariants are kept |
| CmaForm.CmaFormController.Submit | src/components/CMAEvaluationForm.tsx:131-147 | refused exactly when the nurse name is blank; otherwise the current content with the edited record's id and date when non-empty, and a fresh `eval-<millis>` id and the current time otherwise |
| ShortStayForm.EmptyEvaluation | src/components/SurgicalShortForm.tsx:12-126 | the default short-stay record satisfies the invariant, starts with every "no alteration" and "autonomous" box on and no infection risk, has a blank nurse, no preloaded patient fields and every text empty |
| ShortStayForm.EraseFeeding | src/components/SurgicalShortForm.tsx:273-608 | blanking the feeding texts keeps every feeding control |
| ShortStayForm.SameFeedingControlsErase | src/components/SurgicalShortForm.tsx:273-608 | feeding sections whose controls agree are equal once their texts are blanked |
| ShortStayForm.SetFeedingText | src/components/SurgicalShortForm.tsx:330-480 | a feeding text input sets its text and keeps the other texts and every control |
| ShortStayForm.Erase | src/components/SurgicalShortForm.tsx:12-126 | blanking the texts gives a record whose every text is empty and whose controls are unchanged |
| ShortStayForm.SetText | src/components/SurgicalShortForm.tsx:167-1473 | a text input sets its text and keeps every other text and every control |
| ShortStayForm.SetRespirationNoAlteration | src/components/SurgicalShortForm.tsx:192-205 | checking "no alteration" clears all four symptoms; unchecking it keeps them |
| ShortStayForm.ToggleRespiration | src/components/SurgicalShortForm.tsx:210-258 | a symptom takes the value and "no alteration" goes off, in either direction |
| ShortStayForm.ToggleDifficulty | src/components/SurgicalShortForm.tsx:280-330 | a difficulty takes the value and feeding "no alteration" goes off, in either direction |
| ShortStayForm.SetAid | src/components/SurgicalShortForm.tsx:330-420 | an aid box takes the value and leaves "no alteration" and the difficulties alone |
| ShortStayForm.ToggleDifficultyFrame | src/components/SurgicalShortForm.tsx:280-330 | a difficulty box leaves the other three difficulties as they were |
| ShortStayForm.SetAidFrame | src/components/SurgicalShortForm.tsx:330-420 | an aid box leaves the other six aids as they were |
| ShortStayForm.SetFeedingAutonomous | src/components/SurgicalShortForm.tsx:546-557 | "autonomous" takes the value; checking it clears "needs help"; unchecking keeps it |
| ShortStayForm.SetFeedingNeedsHelp | src/components/SurgicalShortForm.tsx:558-569 | "needs help" takes the value; checking it clears "autonomous"; unchecking keeps it |
| ShortStayForm.SetUrinary | src/components/SurgicalShortForm.tsx:612-680 | one urinary box takes the value and the rest of the section is kept |
| ShortStayForm.SetIntestinal | src/components/SurgicalShortForm.tsx:680-748 | one intestinal box takes the value and the rest of the section is kept |
| ShortStayForm.SetRest | src/components/SurgicalShortForm.tsx:821-873 | one rest-and-sleep box takes the value and the rest of the section is kept |
| ShortStayForm.ChooseInfectionRisk | src/components/SurgicalShortForm.tsx:878-901 | the two infection-risk fields are set as complements |
| ShortStayForm.SetSafety | src/components/SurgicalShortForm.tsx:902-986 | one safety box takes the value and the rest of the section is kept |
| ShortStayForm.ToggleSensory | src/components/SurgicalShortForm.tsx:996-1030 | a vision, hearing or speech box takes the value and communication "no alteration" goes off |
| ShortStayForm.Apply | src/components/SurgicalShortForm.tsx:167-1473 | no handler switches feeding "no alteration", communication "no alteration" or mobility "autonomous" back on; the language-barrier radio leaves communication "no alteration" alone |
| ShortStayForm.SameTextsAgree | src/components/SurgicalShortForm.tsx:167-1473 | records whose text fields agree return the same text for every input |
| ShortStayForm.ApplyTextEdit | src/components/SurgicalShortForm.tsx:167-1473 | a text input sets its own text, keeps every other text and touches no control |
| ShortStayForm.RespirationControls | src/components/SurgicalShortForm.tsx:184-272 | the respiration controls keep the invariant and every text |
| ShortStayForm.FeedingControls | src/components/SurgicalShortForm.tsx:273-608 | the feeding controls keep the invariant and every text |
| ShortStayForm.EliminationMobilizationRestControls | src/components/SurgicalShortForm.tsx:609-873 | these controls keep the invariant and every text |
| ShortStayForm.SafetyCommunicationControls | src/components/SurgicalShortForm.tsx:874-1088 | these controls keep the invariant and every text |
| ShortStayForm.RemainingControls | src/components/SurgicalShortForm.tsx:1089-1449 | the belief, comfort, learning and psychosocial controls keep the invariant and every text |
| ShortStayForm.ControlsKeepTexts | src/components/SurgicalShortForm.tsx:184-1449 | every control but a text input keeps the invariant and every text |
| ShortStayForm.ApplyInvariant | src/components/SurgicalShortForm.tsx:167-1473 | every handler keeps the invariant |
| ShortStayForm.ApplyAllInvariant | src/components/SurgicalShortForm.tsx:167-1473 | the invariant holds after any sequence of events |
| ShortStayForm.NeverBackToTrue | src/components/SurgicalShortForm.tsx:273-1030 | once feeding "no alteration", communication "no alteration" or mobility "autonomous" is off, no sequence of events turns it back on |
| ShortStayForm.ReachableInvariant | src/components/SurgicalShortForm.tsx:12-1473 | every record reachable from a new form satisfies the invariant |
| ShortStayForm.NurseOnlyFromItsInput | src/components/SurgicalShortForm.tsx:167-180 | the nurse name changes only through its own input |
| ShortStayForm.ShortStayFormController.constructor | src/components/SurgicalShortForm.tsx:128-131 | the form opens on the given record's content, or on the default record |
| ShortStayForm.ShortStayFormController.Handle | src/components/SurgicalShortForm.tsx:184-1473 | the content becomes the handler's update, and the invariant is kept |
| ShortStayForm.ShortStayFormController.Submit | src/components/SurgicalShortForm.tsx:139-154 | refused exactly when the nurse name is blank; otherwise the current content with the edited record's id and date when non-empty, and a fresh `eval-<millis>` id and the current time otherwise |
| SurgicalReportForm.DefaultReport | src/components/SurgicalReportForm.tsx:30-87 | a new report has a `report-<millis>` id, no patient or surgery, both times now, zero readings, no boxes, empty tables and empty texts |
| SurgicalReportForm.Apply | src/components/SurgicalReportForm.tsx:96-108 | a control changes only the part it owns; ids, times and the copied catalogue data are kept |
| SurgicalReportForm.EditingKeepsIdentityAndWardRows | src/components/SurgicalReportForm.tsx:96-108 | over any editing session, the id, patient, surgery, creation time and copied data are kept, and the ward readings all survive |
| SurgicalReportForm.ReportEditor.constructor | src/components/SurgicalReportForm.tsx:27-87 | the editor opens on page 1, not generating, with the given record or the default one |
| SurgicalReportForm.ReportEditor.InitialDataChanged | src/components/SurgicalReportForm.tsx:89-94 | a new record handed in replaces the form, and no record leaves it as it is |
| SurgicalReportForm.ReportEditor.Next | src/components/SurgicalReportForm.tsx:341-348 | "Siguiente", shown only on page 1, goes to page 2 and keeps the record |
| SurgicalReportForm.ReportEditor.Previous | src/components/SurgicalReportForm.tsx:321-329 | "Anterior", shown only on page 2, goes back to page 1 and keeps the record |
| SurgicalReportForm.ReportEditor.Handle | src/components/SurgicalReportForm.tsx:96-108 | the record becomes the handler's update, the page and flag are kept, and the ward readings survive |
| SurgicalReportForm.ReportEditor.Save | src/components/SurgicalReportForm.tsx:110-112 | a record is handed to the save callback exactly on page 2 when no PDF is being made, and it is the current record |
| SurgicalReportForm.ReportEditor.StartSaveAndPrint | src/components/SurgicalReportForm.tsx:114-119 | under the same condition, the flag goes up and the current record is saved before the PDF is attempted |
| SurgicalReportForm.ReportEditor.FinishSaveAndPrint | src/components/SurgicalReportForm.tsx:120-131 | the flag comes down whatever happened, and the alert is raised exactly when the PDF failed |
| SurgicalReportForm.SaveAndPrintBlocksSaving | src/components/SurgicalReportForm.tsx:350-371 | while a save-and-print is under way, neither save button saves anything |
| PatientNurseModal.PatientNurseSelection.constructor | src/components/PatientNurseSelectionModal.tsx:16 | the picker opens with no patient chosen |
| PatientNurseModal.PatientNurseSelection.Title | src/components/PatientNurseSelectionModal.tsx:43 | the title asks for a patient exactly when none is chosen, and for a nurse exactly when one is |
| PatientNurseModal.PatientNurseSelection.SelectPatient | src/components/PatientNurseSelectionModal.tsx:20-22 | the chosen patient is remembered |
| PatientNurseModal.PatientNurseSelection.SelectNurse | src/components/PatientNurseSelectionModal.tsx:24-29 | with a patient chosen, the pair of ids is returned, the picker resets and asks to close; without one nothing happens |
| PatientNurseModal.PatientNurseSelection.Close | src/components/PatientNurseSelectionModal.tsx:31-34 | the choice is cleared and closing is requested |
| PatientNurseModal.PatientNurseSelection.Back | src/components/PatientNurseSelectionModal.tsx:36-38 | the choice is cleared |
| PatientNurseModal.PickFromCatalogue | src/components/PatientNurseSelectionModal.tsx:20-29 | picking any catalogue patient and nurse gives ids that the lookups resolve to those entries |
| PatientSurgeryModal.PatientSurgerySelection.constructor | src/components/PatientSurgerySelectionModal.tsx:16-17 | the picker opens with no patient and no surgeries |
| PatientSurgeryModal.PatientSurgerySelection.SelectPatient | src/components/PatientSurgerySelectionModal.tsx:21-25 | the patient is remembered and the list holds exactly the patient's catalogue surgeries |
| PatientSurgeryModal.PatientSurgerySelection.SelectSurgery | src/components/PatientSurgerySelectionModal.tsx:27-32 | with a patient chosen, the pair of ids is returned, a listed surgery belongs to the patient and resolves by id, and the picker resets and asks to close; without one nothing changes |
| PatientSurgeryModal.PatientSurgerySelection.Close | src/components/PatientSurgerySelectionModal.tsx:34-38 | the choice and the list are cleared and closing is requested |
| PatientSurgeryModal.PatientSurgerySelection.Back | src/components/PatientSurgerySelectionModal.tsx:40-43 | the choice and the list are cleared |
| PatientSurgeryModal.PickFromCatalogue | src/components/PatientSurgerySelectionModal.tsx:21-32 | choosing a catalogue patient and then its listed surgery selects that patient's and surgery's ids |
| RecordStore.SaveEvaluation | src/App.tsx:105-116 | when editing, exactly the records with the saved id are replaced; otherwise the record is prepended and is the one found under its id |
| RecordStore.SaveEditedIsFound | src/App.tsx:105-116 | saving an edited record whose id is stored makes it the record found under that id |
| RecordStore.SaveEditedOfUnknownIdChangesNothing | src/App.tsx:105-116 | saving while editing a record whose id is not stored changes nothing, so the record is lost rather than added |
| RecordStore.DeleteEvaluation | src/App.tsx:101-103 | the records kept are exactly those with another id |
| RecordStore.DeleteUnknownEvaluation | src/App.tsx:101-103 | deleting an id no record has changes nothing |
| RecordStore.SaveNewThenDeleteEvaluation | src/App.tsx:101-116 | deleting a record just added under a new id gives back the list before it |
| RecordStore.SaveReport | src/App.tsx:236-251 | a stored id is replaced in place, and an unknown one is prepended; afterwards the report is the one found under its id and every other report is kept |
| RecordStore.ReplacedIsFound | src/App.tsx:239-243 | after a replacement by id, the first report with that id is the new one and the others are kept |
| RecordStore.SaveReportIdempotent | src/App.tsx:236-251 | saving the same report twice equals saving it once |
| RecordStore.DeleteReport | src/App.tsx:232-234 | the reports kept are exactly those with another id |
| RecordStore.DeleteUnknownReport | src/App.tsx:232-234 | deleting an id no report has changes nothing |
| RecordStore.SaveNewThenDeleteReport | src/App.tsx:232-251 | deleting a report just saved under a new id gives back the list before it |
| ReportPrefill.BuildReport | src/App.tsx:138-220 | the prefilled report has a stamped id, the chosen ids, both times now, the patient's and surgery's data copied, the URPA nurse, no boxes, the ward seed readings, no medication, the three surgery texts and every other text empty |
| ReportPrefill.PrefillReport | src/App.tsx:131-137 | no report exactly when the patient or the surgery is unknown; otherwise the report carries the patient and surgery the lookups found |
| ReportPrefill.FoundPairPrefills | src/App.tsx:131-225 | a patient and surgery that are found and belong together give a report carrying both |
| ReportPrefill.CataloguePairPrefills | src/App.tsx:131-225 | every catalogue patient with its surgery gives a prefilled report carrying both |
| ReportPrefill.SeedReadingsSurviveEditing | src/App.tsx:194 | the two ward readings a prefilled report starts with survive any editing session |
| ClinicalApp.App.constructor | src/App.tsx:20-37 | the app starts on the menu with both lists empty and nothing open |
| ClinicalApp.App.ShowView | src/App.tsx:285-296 | the menu and back buttons switch the view and change nothing else |
| ClinicalApp.App.NewEvaluation | src/App.tsx:69-71 | the type picker opens and nothing else changes |
| ClinicalApp.App.CloseTypeModal | src/App.tsx:326 | the type picker closes and nothing else changes |
| ClinicalApp.App.SelectEvaluationType | src/App.tsx:73-85 | the type is remembered; short-stay opens the patient and nurse picker, and CMA opens a new form |
| ClinicalApp.App.SelectPatientNurse | src/App.tsx:87-93 | both ids are kept for the form, which opens on a new record |
| ClinicalApp.App.ClosePatientNurseModal | src/App.tsx:332 | the patient and nurse picker closes and nothing else changes |
| ClinicalApp.App.EditEvaluation | src/App.tsx:95-99 | the record's own type's form opens on it; the list, both pickers and the preloaded ids stay |
| ClinicalApp.App.DeleteEvaluation | src/App.tsx:101-103 | the list loses exactly the records with that id and nothing else changes |
| ClinicalApp.App.SaveEvaluation | src/App.tsx:105-116 | the list is updated by the editing flag, and the form closes with its type and record cleared; both pickers and the preloaded ids stay |
| ClinicalApp.App.CancelForm | src/App.tsx:118-124 | the form closes and its record, type and preloaded ids are cleared; the list and both pickers stay |
| ClinicalApp.App.NewSurgicalReport | src/App.tsx:127-129 | the patient and surgery picker opens and nothing else changes |
| ClinicalApp.App.ClosePatientModal | src/App.tsx:372 | the patient and surgery picker closes and nothing else changes |
| ClinicalApp.App.SelectPatientSurgery | src/App.tsx:131-225 | the report built is the prefill for those ids; when it exists it opens in the form and the picker closes, and otherwise nothing changes |
| ClinicalApp.App.OpenPrefilled | src/App.tsx:222-224 | a built report opens in the form and the picker closes; nothing happens without one |
| ClinicalApp.App.EditSurgicalReport | src/App.tsx:227-230 | the form opens on the report |
| ClinicalApp.App.DeleteSurgicalReport | src/App.tsx:232-234 | the list loses exactly the reports with that id and nothing else changes |
| ClinicalApp.App.SaveSurgicalReport | src/App.tsx:236-251 | the report is saved by id and is the one then found under it, and the form closes |
| ClinicalApp.App.CancelSurgicalForm | src/App.tsx:253-256 | the form closes with nothing being edited, and the list stays |

## Left out

- Rendering: markup, styles, `getCellStyle`, `renderForm`, the list screens, the graphs, and the patient header. They change no state.
- PDF generation: the generator is outside the model. Its outcome (made or failed) is the argument of `SurgicalReportForm.ReportEditor.FinishSaveAndPrint`. The `alert` and `console.error` calls are reduced to a boolean.
- Persistence:
  - Reading and writing `localStorage` (src/App.tsx:39-67) is I/O and is left out.
  - Its quirk is not represented: a list that becomes empty is never written back.
- Time:
  - The clock is a parameter.
  - `await` is modelled only as ordering: save-and-print is split into the step before the PDF and the step after it. A component unmounted between the two is not represented.
- Number parsing: readings typed into the tables pass through `Number(...)`, which can yield `NaN`. The model holds readings as `real`, so `NaN` and its comparisons are not represented.
- `VitalSigns.Validate` is stated over the reals and does not model IEEE-754 double rounding near the band edges.
- The 1-to-5 knowledge-level buttons are modelled as a subset type, `KnowledgeLevel`, so a value outside the range cannot arise. The source never produces one either.
- Report checklist: the twelve booleans of the surgical report's page-1 checklist are held as a set of ticked boxes. The record's text fields are grouped into the sections the form shows; the flat field list of src/types/surgicalReport.ts:59-143 is not kept.
- Report text fields: `handleFieldChange` takes any field name. It is modelled only for the fields the editor's inputs actually wire (`TextField`). Writing to a read-only field is not possible in the model.
- Short-stay preload: the app passes the picked patient and nurse ids to the short-stay form (src/App.tsx:262-268), but the form does not read them (src/components/SurgicalShortForm.tsx:128). The model keeps the ids in `ClinicalApp.App`, and the form's patient snapshot stays `None`.
- RecordStore.SaveEvaluation: follows the code, which branches on whether a record is being edited, not on whether its id is stored. `RecordStore.SaveEditedOfUnknownIdChangesNothing` states the consequence.
- CmaForm.ChooseLanguageBarrier: reproduces the code, which does not recompute "no alteration". `CmaForm.LanguageBarrierStaleness` exhibits the inconsistency it allows.
- ShortStayForm.Apply: reproduces the code. Feeding "no alteration", communication "no alteration" and mobility "autonomous" are shown as badges and have no control of their own. Several boxes switch them off, and no control switches them back on. `ShortStayForm.NeverBackToTrue` states the consequence.
- CMA checklist: the pre-surgical checklist has twelve items in the code (src/types/evaluation.ts:299-314), and four of them take only yes or no. The model follows the code.
- CMA default nurse: the default CMA record comes with a preset nurse name (src/components/CMAEvaluationForm.tsx:15), so an untouched CMA form can be submitted. The model follows the code.
- Form props: the CMA and short-stay forms re-copy `initialData` into the form when the prop changes (src/components/CMAEvaluationForm.tsx:125-129, src/components/SurgicalShortForm.tsx:133-137). The app always opens these forms on a fresh mount, so this effect is not modelled for them. It is modelled for the surgical report editor (`SurgicalReportForm.ReportEditor.InitialDataChanged`).
- Vital table: the showGraphs toggle of the vital table and the graphs it reveals are presentation and are left out.
- MedicationSection.AddRow: the time of a new medication row is built by the same `HH:MM` function as the vital table's. Its format is stated once, by `Strings.ClockTime` and `Strings.ClockTimeRoundTrip`, rather than again for this table.
- Id uniqueness: ids stamped from the same millisecond can collide in the source. The model takes the millisecond as a parameter, and the lemmas that need a fresh id require it.
