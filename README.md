# TrialGPT patient-record extraction, modelled in Dafny

This project models two things. The first is how TrialGPT turns a Synthea FHIR R4
bundle into a patient record. The second is how it reads the companion clinical-notes
files.

The bundle side has three parts:

- **The walk.** The first pass over `bundle['entry']` dispatches on `resourceType` to one
  `_extract_*` method per kind. It stores each resource under its id in an
  insertion-ordered dict. It files dated resources into the `events_by_date` index under
  the first ten characters of their date. It collects for every referenced encounter id
  the ids of the resources that point at it.
- **The second pass.** It assigns those id lists to the stored encounter objects.
- **The record's queries.** These are `get_active_conditions`, `get_current_medications`,
  `get_events_for_date` and `get_encounter_context`.

The notes side has two parts:

- **The file parser.** It reads the patient name and the generation stamp from a file's
  first lines. It cuts the rest into `ENCOUNTER n: YYYY-MM-DD` blocks, stops at the first
  block numbered above 5, and keeps at most five encounters.
- **The SOAP splitter.** It cuts one note into its `S:`, `O:`, `A:` and `P:` sections.

### How the code is modelled

- **JSON values.** The parsed bundle is a `JsonValue.Json` tree. An object keeps its
  members in document order, and a later duplicate key wins, as it does with `json.load`.
  The Python accessors the code uses are modelled with the exceptions they raise. `.get`
  on a non-dict raises `AttributeError`. `[0]` on an empty list raises `IndexError`.
  `[key]` on a missing key raises `KeyError`. A fault ends the walk. So every extractor
  returns an `Outcome`, and `ExtractRecord.ExtractPatientRecord` fails exactly when the
  model's walk over the classified entries does, with the fault of the earliest failing
  entry. One fault is the model's own: a field the code reads as text or as an integer
  but that holds some other JSON value fails with `NotText` (see "Left out"), where
  Python often goes on.
- **Entities.** Each resource kind is a datatype (`FhirModel`). The `Encounter` is a class
  (`PatientRecords.Encounter`). Its resource fields are constant. Its six link lists are
  fields, assigned in place by the second pass. The same objects sit in both the
  encounter dict and the date index: every stored encounter is listed, as the object the
  dict holds, under its start date, so the second pass changes what both show. The
  record is a class whose dicts are `OrderedDict.Dict` values: a key list plus a map.
  Reassigning a key keeps its place, as it does in a Python dict.
- **How each part is specified.** The walk and the two note parsers are methods with
  loops. Each is proved to end in the state that a function of its input describes:
  - `BundleWalk.Resources`, plus the folds `Collect`, `EventsIndex`, `RefsIndex` and
    `LastPatient`, describe the walk;
  - `ClinicalNotes.ParsedNotes` describes the file parser;
  - `SoapNotes.SoapOf` describes the SOAP splitter.

  Lemmas then say what those functions mean: order-preserving filters, last-write-wins,
  per-date buckets and the blocks of lines between headers. Both note parsers share the
  header-led block segmentation of `LineBlocks`. Each loop's scan (`FoldBlocks`) is
  proved equal to that segmentation (`Blocks`).
- **Parameters.** Base64 plus UTF-8 decoding is the parameter
  `decode: string -> Option<string>`. The file name stored with each note is the
  parameter `sourceFile`.

### Where the code and its design description differ

This model follows the code.

- A bundle without a Patient entry leaves `record.patient` as `None`. It does not get a
  patient with empty fields (`mycode/synthea_extractor.py:287`, `:300-301`).
- The second pass assigns each encounter's lists. It does not append to them
  (`mycode/synthea_extractor.py:385-390`).
- `Patient.age` counts from the fixed year 2025 (`mycode/synthea_extractor.py:99`). It does
  not take a current date.

## Model

| member | source | states |
|---|---|---|
| FhirModel.AgeOfIsoDate | mycode/synthea_extractor.py:96-99 | a birth date `YYYY-...` with a digit year gives age 2025 minus that year |
| FhirModel.NoAgeWithoutYear | mycode/synthea_extractor.py:96-99 | an empty birth date, or one starting with `-`, has no age (the `int()` call raises) |
| PatientRecords.PatientRecord.ActiveConditions | mycode/synthea_extractor.py:113-115 | every listed condition is stored and active, every stored active condition is listed, and the list keeps the dict's order (`IsActive`: status `active` and no or empty abatement date) |
| PatientRecords.PatientRecord.CurrentMedications | mycode/synthea_extractor.py:233-235 | every listed medication is stored and has status `active`, every stored active one is listed, and the list keeps the dict's order |
| PatientRecords.PatientRecord.EventsForDate | mycode/synthea_extractor.py:237-248 | the bucket stored under the date's first ten characters, or a bucket with all seven lists empty when that key is absent |
| PatientRecords.PatientRecord.EventsForTimestamp | mycode/synthea_extractor.py:239 | a timestamp and its ten-character date select the same bucket |
| PatientRecords.PatientRecord.EncounterContext | mycode/synthea_extractor.py:250-272 | nothing exactly for an unknown id; otherwise the encounter object, the six non-encounter lists of its start date's bucket, the patient and the two filters |
| PatientRecords.Encounter.Link | mycode/synthea_extractor.py:385-390 | the six link lists become the given lists |
| PatientRecords.Encounter.constructor | mycode/synthea_extractor.py:632-643 | an encounter built from its fields has all six link lists empty |
| PatientRecords.PatientRecord.constructor | mycode/synthea_extractor.py:287 | a new record has no patient and every dict empty |
| ExtractRecord.ExtractPatientRecord | mycode/synthea_extractor.py:281-392 | fails exactly when the model's extraction of some entry faults (a Python exception, or the model's `NotText`), with the earliest entry's fault; otherwise a fresh record that holds the bundle's resources (each kind stored under its id, the date index, the last patient) with every encounter linked to the resources that reference it |
| ExtractRecord.SecondPass | mycode/synthea_extractor.py:383-390 | on still-unlinked encounters, every stored encounter ends with the lists collected for its id, or with none; every stored encounter stays listed under its start date, and every encounter object in the date index is the dict's object for its id or stays unlinked |
| ExtractRecord.EncounterOfDescribed | mycode/synthea_extractor.py:303-305 | a stored encounter is an Encounter entry with that id, and no later Encounter entry has that id |
| ExtractRecord.LinksOfDescribed | mycode/synthea_extractor.py:314-316 | a stored encounter's six lists are the ids, kind by kind and in bundle order, of the resources whose reference ends in that encounter's id |
| ExtractRecord.EventsOfDescribed | mycode/synthea_extractor.py:237-248 | `get_events_for_date(d)` of the finished record lists, kind by kind and in bundle order, the resources filed under `d[:10]`; every stored encounter whose start date has that prefix is listed as the very object the dict holds; each listed encounter is the object stored under its id, with that id's collected lists, or an unlinked object |
| ExtractRecord.StoredOnItsDate | mycode/synthea_extractor.py:303-308 | in the finished record, each stored encounter is listed, as the same object, among the events of its own start date |
| ExtractRecord.ContextOfDescribed | mycode/synthea_extractor.py:250-272 | the context of a stored encounter holds, kind by kind and in bundle order, the resources filed under its start date, and the bundle's last patient |
| BundleWalk.RunFirstPass | mycode/synthea_extractor.py:295-381 | the first loop fails exactly when the classified entries do; otherwise it ends in the state of the fold over the resources, with every encounter object fresh and unlinked |
| BundleWalk.WalkEntry | mycode/synthea_extractor.py:296-298 | one entry either fails with the walk's fault or extends the good prefix by one resource |
| BundleWalk.ClassifyFault | mycode/synthea_extractor.py:297-298 | an entry whose `resource` or `resourceType` cannot be read is dispatched to that fault |
| BundleWalk.ClassifyUnknownType | mycode/synthea_extractor.py:300-371 | a `resourceType` other than the eight known ones matches no branch: the entry is `Unrecognised` |
| BundleWalk.ClassifyDispatch | mycode/synthea_extractor.py:300-371 | a known `resourceType` selects its extractor: the entry's outcome is exactly that extractor applied to the entry's resource |
| BundleWalk.Classify | mycode/synthea_extractor.py:296-371 | a classified entry is of the kind its `resourceType` names |
| BundleWalk.Extract | mycode/synthea_extractor.py:300-371 | each known type's branch yields a resource of that kind |
| BundleWalk.UnrecognisedIgnored | mycode/synthea_extractor.py:298-371 | an entry of any other type changes nothing in the first pass |
| BundleWalk.ClassifyEntry | mycode/synthea_extractor.py:296-371 | the dispatch of one entry on `resourceType`, with the looping extractors run as methods, is that of `Classify` |
| BundleWalk.AddResource | mycode/synthea_extractor.py:300-380 | one dispatch branch moves the record to the next snapshot of the fold |
| BundleWalk.AddClinicalResource | mycode/synthea_extractor.py:310-380 | a condition, medication, observation, procedure, immunization or report is stored under its id, its reference is noted, and it is filed under its date when it has one |
| BundleWalk.AddEncounter | mycode/synthea_extractor.py:303-308 | a fresh, unlinked encounter object is stored under its id and filed under its start date's first ten characters, even when that is empty |
| BundleWalk.NewRecord | mycode/synthea_extractor.py:287-293 | the empty record and the empty reference table are the fold's starting state |
| BundleWalk.LinkEncounters | mycode/synthea_extractor.py:383-390 | every stored encounter whose id has collected references gets exactly those lists; references to unknown ids are dropped; every other encounter is unchanged |
| BundleWalk.FirstPassParts | mycode/synthea_extractor.py:295-381 | the loop's combined state is the separate folds side by side: each kind's dict, the index, the reference table and the patient |
| BundleWalk.ClassifyAllPrefixFailure | mycode/synthea_extractor.py:296-380 | a failing entry after a run of good ones decides the walk's fault |
| BundleWalk.CollectKeys | mycode/synthea_extractor.py:305 | each kind's dict is well formed and has a key for exactly the ids of that kind's resources |
| BundleWalk.CollectLast | mycode/synthea_extractor.py:312 | each kind's dict holds, under each id, the last resource with that id |
| BundleWalk.NoPatient | mycode/synthea_extractor.py:287 | `record.patient` is `None` exactly when the bundle has no Patient entry |
| BundleWalk.LastPatientWins | mycode/synthea_extractor.py:300-301 | otherwise it is the last Patient entry's patient |
| BundleWalk.EventsIndexDates | mycode/synthea_extractor.py:307-380 | the date index has a bucket exactly for the dates some resource is filed under |
| BundleWalk.EventsIndexBuckets | mycode/synthea_extractor.py:307-380 | the bucket for a date lists, kind by kind and in bundle order, the resources filed under it |
| BundleWalk.RefsIndexTargets | mycode/synthea_extractor.py:314-376 | the reference table has an entry exactly for the ids some non-empty reference ends in |
| BundleWalk.RefsIndexLists | mycode/synthea_extractor.py:314-376 | the lists collected for an id are, kind by kind and in bundle order, the ids of the resources referencing it |
| BundleWalk.IdsSpec | mycode/synthea_extractor.py:316 | the collected ids are the resources' ids, one each, in order |
| FhirExtract.ExtractPatient | mycode/synthea_extractor.py:394-444 | `_extract_patient` with its loops is `PatientOf`: the name and address, the first phone and the race and ethnicity texts |
| FhirExtract.FindPhone | mycode/synthea_extractor.py:411-415 | the telecom loop returns the value of the first telecom whose system is `phone`, else `""` |
| FhirExtract.FindText | mycode/synthea_extractor.py:423-426 | the inner extension loop returns the `valueString` of the first sub-extension whose url is `text` |
| FhirExtract.ScanExtensions | mycode/synthea_extractor.py:418-432 | the outer extension loop visits every extension; a later race or ethnicity text overrides an earlier one |
| FhirExtract.BarePatient | mycode/synthea_extractor.py:394-444 | a patient resource with only an id gets every other field empty, with the address separators stripped away |
| FhirExtract.PatientContents | mycode/synthea_extractor.py:394-444 | `PatientOf`, the model of `_extract_patient`, keeps the resource's id, birth date, gender and `maritalStatus.text`, with the name and address it assembles |
| FhirExtract.ConditionContents | mycode/synthea_extractor.py:446-458 | `ConditionOf`, the model of `_extract_condition`, keeps the id, the encounter reference, the first `code` coding's code and display, the first `clinicalStatus` coding's code, the onset date and the abatement date (`None` when absent or null) |
| FhirExtract.ConditionActiveRule | mycode/synthea_extractor.py:114-115 | an extracted condition is active exactly when its first `clinicalStatus` code is `active` and its `abatementDateTime` is absent, null or empty |
| FhirExtract.MedicationContents | mycode/synthea_extractor.py:460-487 | `MedicationOf`, the model of `_extract_medication`, keeps the id, the encounter reference and the first `medicationCodeableConcept` coding's code and display; the reason code is empty, the reason display is the `reasonReference` marker, and without dosage instructions the dosage text is empty |
| FhirExtract.ObservationContents | mycode/synthea_extractor.py:489-521 | `ObservationOf`, the model of `_extract_observation`, keeps the id, the encounter reference, the effective date and the first `code` coding's code and display |
| FhirExtract.ProcedureContents | mycode/synthea_extractor.py:523-547 | `ProcedureOf`, the model of `_extract_procedure`, keeps the id, the encounter reference and the first `code` coding's code and display; the reason code is empty and the reason display is the `reasonReference` marker |
| FhirExtract.ImmunizationContents | mycode/synthea_extractor.py:549-571 | `ImmunizationOf`, the model of `_extract_immunization`, keeps the id, the encounter reference, the first `vaccineCode` coding's code, and the dose number and series of the first protocol |
| FhirExtract.ReportContents | mycode/synthea_extractor.py:573-603 | `ReportOf`, the model of `_extract_diagnostic_report`, keeps the id, the encounter reference, the first `code` coding's code and display, and the text of the presented forms |
| FhirExtract.NonDictResourceFails | mycode/synthea_extractor.py:394-643 | every extractor fails with `AttributeError` on a resource that is not a dict |
| FhirExtract.EmptyCodingFails | mycode/synthea_extractor.py:448 | an empty `coding` list makes the condition, observation, procedure and report extractors raise `IndexError` |
| FhirExtract.ReasonDisplayRule | mycode/synthea_extractor.py:471-475 | a medication's or procedure's reason display is `See conditions` exactly when `reasonReference` is truthy, and `""` otherwise |
| FhirExtract.ObservationValueRule | mycode/synthea_extractor.py:494-502 | the value and unit come from `valueQuantity`, else the text of `valueCodeableConcept` with no unit, else `valueString`, else null |
| FhirExtract.DateFallbackRule | mycode/synthea_extractor.py:534-536 | the date-time field when non-empty; else the period's start when the period key is present; else `""` |
| FhirExtract.ProcedureAndReportDates | mycode/synthea_extractor.py:534-593 | `performed_date` and the report's `effective_date` follow that rule |
| FhirExtract.ImmunizationDisplayRule | mycode/synthea_extractor.py:551-560 | the vaccine display is the coding's display, else the concept's `text`; without `protocolApplied` there is neither dose nor series, with it there is a series |
| FhirExtract.ExtractDiagnosticReport | mycode/synthea_extractor.py:573-603 | the form-by-form accumulation of `presented_form` gives `ReportOf` |
| FhirExtract.FormsTextPrefixFailure | mycode/synthea_extractor.py:580-588 | once a form faults, the whole report faults with that fault |
| FhirExtract.FormContributionRule | mycode/synthea_extractor.py:580-588 | one form adds nothing without `data`, its decoded text and a newline when its string data decodes, the raw data and no newline when it does not, and fails with `TypeError` for non-string data |
| FhirExtract.FormsAppend | mycode/synthea_extractor.py:580-588 | appending a form to forms whose text is `s` gives `s` extended by that contribution, or its fault |
| FhirExtract.NoPresentedForm | mycode/synthea_extractor.py:578-579 | a report without `presentedForm` has empty note text |
| FhirExtract.EncounterDisplayDefaults | mycode/synthea_extractor.py:607-641 | the type display is the first type coding's display, or `General Encounter` when that is empty; the reason display is the first reason coding's display, or `Routine follow-up` when that is empty; so neither is ever empty |
| FhirExtract.EncounterFirstCodings | mycode/synthea_extractor.py:607-630 | an absent or empty `type` list reads the type from an empty coding; an absent or empty `reasonCode` list gives an empty reason code and display; otherwise the reason display is read from the first reason's first coding |
| FhirExtract.EncounterContents | mycode/synthea_extractor.py:605-643 | `EncounterOf`, the model of `_extract_encounter`, keeps the resource's id, the code of the first type coding and the code of the first reason coding |
| FhirExtract.EncounterClassDisplay | mycode/synthea_extractor.py:637 | the class display is the class's display; else its `code` when that key is present, else `ambulatory` |
| FhirExtract.BareEncounter | mycode/synthea_extractor.py:605-643 | an encounter with only an id gets `General Encounter`, `ambulatory` and `Routine follow-up` |
| JsonValue.LookupSpec | mycode/synthea_extractor.py:284 | a key is absent exactly when no member has it; otherwise the value is that of the last member with the key |
| JsonValue.LookupLastWins | mycode/synthea_extractor.py:284 | a later member overrides every earlier binding of its key and no other key |
| JsonValue.Keys | mycode/synthea_extractor.py:420 | the keys a dict iterates are its distinct member keys |
| JsonValue.GetAbsent | mycode/synthea_extractor.py:297 | an absent key reads as its default |
| OrderedDict.PutGetOr | mycode/synthea_extractor.py:305 | reading back after `d[k] = v` gives `v` at `k` and the old value elsewhere |
| OrderedDict.PutKeys | mycode/synthea_extractor.py:305 | reassigning a key keeps the key order; a new key goes last |
| OrderedDict.Dict.Values | mycode/synthea_extractor.py:231 | `values()` lists the bound values in key order |
| Seqs.Filter | mycode/synthea_extractor.py:231 | the comprehension keeps exactly the elements passing the test, in order |
| Seqs.FilterCount | mycode/synthea_extractor.py:231 | an element passing the test is kept as often as it occurs; one failing it, never |
| Text.StripByIs | mycode/synthea_extractor.py:408 | `strip(chars)` drops exactly the runs of those characters at either end |
| Text.LastSegment | mycode/synthea_extractor.py:315 | `split('/')[-1]` is the text after the last `/`, or all of it |
| Text.RemoveAll | mycode/add_notes_to_csv.py:109 | `replace(tag, '')` never lengthens the text and leaves a text without the tag alone |
| Text.RemoveAllLeading | mycode/add_notes_to_csv.py:109 | a leading occurrence of the tag is removed and the scan goes on after it, so `tag + t` loses exactly the leading tag when `t` has none |
| LineBlocks.FoldIsBlocks | mycode/add_notes_to_csv.py:128-156 | the line-by-line scan builds exactly the header-led blocks |
| LineBlocks.BlocksCover | mycode/add_notes_to_csv.py:128-156 | the lines are the lines before the first header followed by the blocks' lines, in order |
| LineBlocks.BlocksAreHeaded | mycode/add_notes_to_csv.py:130-132 | each block starts with a header line and its body holds no header |
| LineBlocks.BlocksIgnoreLead | mycode/add_notes_to_csv.py:155-156 | lines before the first header change no block |
| ClinicalNotes.ParseClinicalNotes | mycode/add_notes_to_csv.py:103-166 | the method's result is `ParsedNotes` of the file's text |
| ClinicalNotes.ScanEncounters | mycode/add_notes_to_csv.py:123-166 | the encounter loop returns the first five records of the blocks before the first header numbered above 5 |
| ClinicalNotes.FindTagged | mycode/add_notes_to_csv.py:106-121 | the tag scan stops at the first hit among the first `n` lines |
| ClinicalNotes.TagValueFirst | mycode/add_notes_to_csv.py:106-121 | the tag's value is the first tagged line among the first `n` with the tag removed and stripped, or `""` when none carries it |
| ClinicalNotes.NoPatientNoNotes | mycode/add_notes_to_csv.py:112-114 | without `Patient:` among the first five lines the result is empty |
| ClinicalNotes.NotesAreBlocks | mycode/add_notes_to_csv.py:128-164 | with a patient name, the result is the first five blocks' records, each with its header's number and date, its note text, the name, the stamp and the file name |
| ClinicalNotes.NotesBounded | mycode/add_notes_to_csv.py:152-164 | at most five encounters, each numbered at most 5 and dated by a `YYYY-MM-DD` date |
| ClinicalNotes.KeptLines | mycode/add_notes_to_csv.py:155-156 | the text's lines, the lines passing `Keeps` in their order (through `Seqs.Filter`) each stripped, are exactly the stripped non-blank lines not starting with `Patient:`, `Generated:` or `=` |
| ClinicalNotes.HeaderShapeMatches | mycode/add_notes_to_csv.py:130 | a line of the shape `ENCOUNTER`, whitespace, digits, `:`, optional whitespace and a date matches, with that number and date |
| ClinicalNotes.MatchIsHeaderShape | mycode/add_notes_to_csv.py:130 | only a line of that shape matches |
| ClinicalNotes.FirstWhere | mycode/add_notes_to_csv.py:107-110 | the first position satisfying the test, or none when no position does |
| ClinicalNotes.RecordsAt | mycode/add_notes_to_csv.py:134-148 | one record per block, in order |
| SoapNotes.ExtractSoapComponents | mycode/add_notes_to_csv.py:168-216 | the method's result is `SoapOf` of the note |
| SoapNotes.NoHeaderNoSoap | mycode/add_notes_to_csv.py:171-179 | an empty note, or one without a header line, has every component empty |
| SoapNotes.SoapHeaderIs | mycode/add_notes_to_csv.py:189-208 | a stripped line is a header exactly when its second character is `:` and its first is `S`, `O`, `A` or `P`; the section seeds with the rest of the line stripped |
| SoapNotes.NonBlankIs | mycode/add_notes_to_csv.py:209-210 | a section's content lines, its lines filtered in order by `Seqs.Filter`, are exactly its non-blank lines, and all of them when none is blank |
| SoapNotes.SectionOfLast | mycode/add_notes_to_csv.py:190-191 | a repeated section holds the text of its last occurrence |
| SoapNotes.SectionOfNone | mycode/add_notes_to_csv.py:171-176 | a section that never appears stays empty |
| SoapNotes.LeadIgnored | mycode/add_notes_to_csv.py:209 | lines before the first header change no component |
| SoapNotes.WithComponent | mycode/add_notes_to_csv.py:191 | saving a section sets that component and leaves the others alone |
| Text.StripAllAt | mycode/add_notes_to_csv.py:186 | each line is read stripped |

## Left out

- File and JSON I/O. The model starts from the parsed bundle and from the notes file's
  text. The read-error path of `parse_clinical_notes_file`
  (`mycode/add_notes_to_csv.py:96-101`) is out.
- Base64 and UTF-8 decoding. Decoding is the opaque parameter `decode`; the model states
  only how decoded and undecodable forms are concatenated.
- Floating-point values. A non-integral JSON number is kept as an opaque value, and
  nothing computes with it.
- JsonValue.AsText, JsonValue.GetOptText and JsonValue.GetOptInt: a field the code reads
  as text, or as an integer, but that holds some other JSON value (`null` included,
  where a text is expected) fails with `NotText`. Python does not fail there. It stores
  the value in the dataclass as it is (a non-integer dose number, `:559`, for example).
  At the places the code then uses the value, Python behaves as follows:
  - a null or otherwise falsy encounter reference is skipped (`:314`);
  - a null date-time field falls back to the period's start (`:534-536`);
  - a truthy non-string date raises `TypeError` at `[:10]` (`:319`);
  - a truthy non-string reference raises `AttributeError` at `.split` (`:315`).
  So `ExtractRecord.ExtractPatientRecord` fails on some bundles with such values that
  Python accepts, and it fails with `NotText` where Python raises another exception.
- FhirModel.Patient.Age: `None` where the year is not a plain run of ASCII digits. Python's
  `int()` also accepts signs, surrounding whitespace, underscores and non-ASCII digits;
  those forms are not modelled.
- `\d` and `\s` in the encounter header pattern are read as ASCII digits and as the
  characters `str.isspace` accepts. Non-ASCII Unicode digits are not modelled.
- The printed warnings (`mycode/add_notes_to_csv.py:100`, `:113`). The patient-name check's
  `return []` is modelled, but the message is not.
- `file_path.name` is the parameter `sourceFile`.
- The rest of `mycode/add_notes_to_csv.py`: `process_all_notes_files`, the pandas merges,
  `_load_existing_datasets`, `save_datasets` and `main`. These are library calls and
  float aggregation.
- `mycode/note_pipeline_final.py` and `mycode/json_to_csv.py` are not part of this model.
  They hold network calls, file writes and DataFrame flattening.
- The `__main__` demo blocks.
