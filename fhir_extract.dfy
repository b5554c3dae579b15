/**
 * The per-kind extractors: each reads one FHIR resource (a JSON object) into an
 * entity, with the Python code's defaults and fallbacks, and fails with the exception
 * the Python code would raise when the resource does not have the shape it assumes.
 * Field reads happen in the Python code's evaluation order, so the first failing read
 * decides the fault.
 */
module FhirExtract {
  import opened Wrappers
  import opened Text
  import opened JsonValue
  import opened FhirModel

  /** `v.get('coding', [{}])[0]`. */
  function CodingOf(concept: Json): Outcome<Json> {
    var codings :- Get(concept, "coding", JArr([JObj([])]));
    First(codings)
  }

  /** `resource.get(key, {}).get('coding', [{}])[0]`. */
  function FirstCoding(resource: Json, key: string): Outcome<Json> {
    var concept :- Get(resource, key, JObj([]));
    CodingOf(concept)
  }

  /** `resource.get('encounter', {}).get('reference', '')`. */
  function EncounterRef(resource: Json): Outcome<string> {
    NestedText(resource, "encounter", "reference")
  }

  /** The `reason_display` of medications and procedures: a marker when the resource
      lists any `reasonReference`, empty otherwise. */
  function ReasonMarker(resource: Json): Outcome<string> {
    var refs :- Get(resource, "reasonReference", JArr([]));
    Success(if Truthy(refs) then "See conditions" else "")
  }

  /** A date that falls back to `period.start` when the date-time field is empty and
      the period key is present. */
  function DateWithFallback(resource: Json, dateKey: string, periodKey: string): Outcome<string> {
    var date :- GetText(resource, dateKey, "");
    if date == "" then
      var hasPeriod :- In(periodKey, resource);
      if hasPeriod then
        var period :- Item(resource, periodKey);
        GetText(period, "start", "")
      else
        Success(date)
    else
      Success(date)
  }

  /** An extracted entity's `id` and `encounter_ref` are the resource's `id` and
      `encounter.reference`. */
  predicate Identified(resource: Json, id: string, ref: string) {
    GetText(resource, "id", "") == Success(id) && EncounterRef(resource) == Success(ref)
  }

  /** `code` and `display` are those of `resource`'s first coding under `key`. */
  predicate CodedBy(resource: Json, key: string, code: string, display: string) {
    && FirstCoding(resource, key).Success?
    && GetText(FirstCoding(resource, key).value, "code", "") == Success(code)
    && GetText(FirstCoding(resource, key).value, "display", "") == Success(display)
  }

  /** `_extract_condition`: the status is the code of the first `clinicalStatus` coding
      and the abatement date is kept only when present and not null. */
  function ConditionOf(resource: Json): Outcome<Condition> {
    var coding :- FirstCoding(resource, "code");
    var id :- GetText(resource, "id", "");
    var code :- GetText(coding, "code", "");
    var display :- GetText(coding, "display", "");
    var statusCoding :- FirstCoding(resource, "clinicalStatus");
    var status :- GetText(statusCoding, "code", "");
    var onset :- GetText(resource, "onsetDateTime", "");
    var abatement :- GetOptText(resource, "abatementDateTime");
    var ref :- EncounterRef(resource);
    Success(Condition(id, code, display, status, onset, abatement, ref))
  }

  /** `_extract_medication`. */
  function MedicationOf(resource: Json): Outcome<Medication> {
    var coding :- FirstCoding(resource, "medicationCodeableConcept");
    var dosageList :- Get(resource, "dosageInstruction", JArr([]));
    var dosage :-
      if Truthy(dosageList) then
        var first :- First(dosageList);
        GetText(first, "text", "")
      else
        Success("");
    var reasonDisplay :- ReasonMarker(resource);
    MedicationFields(resource, coding, dosage, reasonDisplay)
  }

  /** The fields `_extract_medication` reads after the dosage and the reason. */
  function MedicationFields(resource: Json, coding: Json, dosage: string, reasonDisplay: string)
    : (r: Outcome<Medication>)
    ensures r.Success? ==> r.value.dosageText == dosage && r.value.reasonDisplay == reasonDisplay
                           && r.value.reasonCode == ""
    ensures r.Success? ==> Identified(resource, r.value.id, r.value.encounterRef)
    ensures r.Success? ==> GetText(coding, "code", "") == Success(r.value.code)
                           && GetText(coding, "display", "") == Success(r.value.display)
  {
    var id :- GetText(resource, "id", "");
    var code :- GetText(coding, "code", "");
    var display :- GetText(coding, "display", "");
    var status :- GetText(resource, "status", "");
    var authored :- GetText(resource, "authoredOn", "");
    var ref :- EncounterRef(resource);
    Success(Medication(id, code, display, status, authored, dosage, "", reasonDisplay, ref))
  }

  /** The observation's `(value, unit)`: a quantity's value and unit, a concept's
      text, or a string, tried in that order; `(None, "")` otherwise. */
  function ObservationValue(resource: Json): Outcome<(Json, string)> {
    var hasQuantity :- In("valueQuantity", resource);
    if hasQuantity then
      var q :- Item(resource, "valueQuantity");
      var value :- Get(q, "value", JNull);
      var unit :- GetText(q, "unit", "");
      Success((value, unit))
    else
      var hasConcept :- In("valueCodeableConcept", resource);
      if hasConcept then
        var c :- Item(resource, "valueCodeableConcept");
        var text :- Get(c, "text", JStr(""));
        Success((text, ""))
      else
        var hasString :- In("valueString", resource);
        if hasString then
          var s :- Item(resource, "valueString");
          Success((s, ""))
        else
          Success((JNull, ""))
  }

  /** The observation's category: the code of the first coding of the first category,
      read only when `category` is a non-empty list. */
  function ObservationCategory(resource: Json): Outcome<string> {
    var hasCategory :- In("category", resource);
    if hasCategory then
      var cats :- Get(resource, "category", JArr([]));
      if Truthy(cats) && cats.JArr? then
        var first :- First(cats);
        var coding :- CodingOf(first);
        GetText(coding, "code", "")
      else
        Success("")
    else
      Success("")
  }

  /** `_extract_observation`. */
  function ObservationOf(resource: Json): Outcome<Observation> {
    var coding :- FirstCoding(resource, "code");
    var vu :- ObservationValue(resource);
    var category :- ObservationCategory(resource);
    ObservationFields(resource, coding, vu, category)
  }

  /** The fields `_extract_observation` reads after the value and the category. */
  function ObservationFields(resource: Json, coding: Json, vu: (Json, string), category: string)
    : (r: Outcome<Observation>)
    ensures r.Success? ==> r.value.value == vu.0 && r.value.unit == vu.1 && r.value.category == category
    ensures r.Success? ==> Identified(resource, r.value.id, r.value.encounterRef)
    ensures r.Success? ==> GetText(coding, "code", "") == Success(r.value.code)
                           && GetText(coding, "display", "") == Success(r.value.display)
    ensures r.Success? ==> GetText(resource, "effectiveDateTime", "") == Success(r.value.effectiveDate)
  {
    var id :- GetText(resource, "id", "");
    var code :- GetText(coding, "code", "");
    var display :- GetText(coding, "display", "");
    var effective :- GetText(resource, "effectiveDateTime", "");
    var ref :- EncounterRef(resource);
    Success(Observation(id, code, display, vu.0, vu.1, effective, category, ref))
  }

  /** `_extract_procedure`. */
  function ProcedureOf(resource: Json): Outcome<Procedure> {
    var coding :- FirstCoding(resource, "code");
    var reasonDisplay :- ReasonMarker(resource);
    var performed :- DateWithFallback(resource, "performedDateTime", "performedPeriod");
    ProcedureFields(resource, coding, performed, reasonDisplay)
  }

  /** The fields `_extract_procedure` reads after the reason and the date. */
  function ProcedureFields(resource: Json, coding: Json, performed: string, reasonDisplay: string)
    : (r: Outcome<Procedure>)
    ensures r.Success? ==> r.value.performedDate == performed && r.value.reasonDisplay == reasonDisplay
                           && r.value.reasonCode == ""
    ensures r.Success? ==> Identified(resource, r.value.id, r.value.encounterRef)
    ensures r.Success? ==> GetText(coding, "code", "") == Success(r.value.code)
                           && GetText(coding, "display", "") == Success(r.value.display)
  {
    var id :- GetText(resource, "id", "");
    var code :- GetText(coding, "code", "");
    var display :- GetText(coding, "display", "");
    var status :- GetText(resource, "status", "");
    var ref :- EncounterRef(resource);
    Success(Procedure(id, code, display, performed, status, "", reasonDisplay, ref))
  }

  /** The immunization's `(dose_number, series)`, read from the first applied protocol
      (an empty one when the list is empty) only when `protocolApplied` is present. */
  function ProtocolInfo(resource: Json): Outcome<(Option<int>, Option<string>)> {
    var hasProtocol :- In("protocolApplied", resource);
    if hasProtocol then
      var applied :- Item(resource, "protocolApplied");
      var protocol :-
        if Truthy(applied) then First(applied) else
          Success(JObj([]));
      var dose :- GetOptInt(protocol, "doseNumberPositiveInt");
      var series :- GetText(protocol, "series", "");
      Success((dose, Some(series)))
    else
      Success((None, None))
  }

  /** `_extract_immunization`. */
  function ImmunizationOf(resource: Json): Outcome<Immunization> {
    var coding :- FirstCoding(resource, "vaccineCode");
    var codingDisplay :- GetText(coding, "display", "");
    var vaccineDisplay :-
      if codingDisplay != "" then Success(codingDisplay)
      else NestedText(resource, "vaccineCode", "text");
    var protocol :- ProtocolInfo(resource);
    ImmunizationFields(resource, coding, vaccineDisplay, protocol)
  }

  /** The fields `_extract_immunization` reads after the display and the protocol. */
  function ImmunizationFields(resource: Json, coding: Json, vaccineDisplay: string,
                              protocol: (Option<int>, Option<string>)): (r: Outcome<Immunization>)
    ensures r.Success? ==> r.value.vaccineDisplay == vaccineDisplay
                           && r.value.doseNumber == protocol.0 && r.value.series == protocol.1
    ensures r.Success? ==> Identified(resource, r.value.id, r.value.encounterRef)
    ensures r.Success? ==> GetText(coding, "code", "") == Success(r.value.vaccineCode)
  {
    var id :- GetText(resource, "id", "");
    var code :- GetText(coding, "code", "");
    var occurrence :- GetText(resource, "occurrenceDateTime", "");
    var status :- GetText(resource, "status", "");
    var ref :- EncounterRef(resource);
    Success(Immunization(id, code, vaccineDisplay, occurrence, status, ref, protocol.0, protocol.1))
  }

  /** What one `presentedForm` entry adds to the note text. A dict with a string `data`
      adds its decoding and a newline, or the raw text when it does not decode; a
      non-string `data` fails when it is appended. An entry that is a string or list
      merely containing `"data"` fails in the fallback's `.get`. */
  function FormContribution(form: Json, decode: string -> Option<string>): Outcome<string> {
    var hasData :- In("data", form);
    if !hasData then Success("")
    else if form.JObj? then
      var data :- Item(form, "data");
      if data.JStr? then
        match decode(data.s)
        case Some(text) => Success(text + "\n")
        case None => Success(data.s)
      else
        Failure(TypeError)
    else
      Failure(AttributeError)
  }

  /** The concatenation, in order, of the contributions of `forms`; the earliest failing
      form decides the fault. */
  function FormsText(forms: seq<Json>, decode: string -> Option<string>): Outcome<string> {
    if forms == [] then Success("")
    else
      var init :- FormsText(forms[..|forms| - 1], decode);
      var last :- FormContribution(forms[|forms| - 1], decode);
      Success(init + last)
  }

  /** `presented_form`: empty unless the resource has a `presentedForm` key. */
  function PresentedForm(resource: Json, decode: string -> Option<string>): Outcome<string> {
    var hasForms :- In("presentedForm", resource);
    if hasForms then
      var formList :- Get(resource, "presentedForm", JArr([]));
      var forms :- Iter(formList);
      FormsText(forms, decode)
    else
      Success("")
  }

  /** `_extract_diagnostic_report`, as a value. */
  function ReportOf(resource: Json, decode: string -> Option<string>): Outcome<DiagnosticReport> {
    var coding :- FirstCoding(resource, "code");
    var presented :- PresentedForm(resource, decode);
    var effective :- DateWithFallback(resource, "effectiveDateTime", "effectivePeriod");
    ReportFields(resource, coding, effective, presented)
  }

  /** The fields `_extract_diagnostic_report` reads after the note text and the date. */
  function ReportFields(resource: Json, coding: Json, effective: string, presented: string)
    : (r: Outcome<DiagnosticReport>)
    ensures r.Success? ==> r.value.effectiveDate == effective && r.value.presentedForm == presented
    ensures r.Success? ==> Identified(resource, r.value.id, r.value.encounterRef)
    ensures r.Success? ==> GetText(coding, "code", "") == Success(r.value.code)
                           && GetText(coding, "display", "") == Success(r.value.display)
  {
    var id :- GetText(resource, "id", "");
    var code :- GetText(coding, "code", "");
    var display :- GetText(coding, "display", "");
    var conclusion :- GetText(resource, "conclusion", "");
    var ref :- EncounterRef(resource);
    Success(DiagnosticReport(id, code, display, effective, conclusion, presented, ref))
  }

  /** `_extract_diagnostic_report`: the note text accumulated form by form. */
  method ExtractDiagnosticReport(resource: Json, decode: string -> Option<string>)
    returns (r: Outcome<DiagnosticReport>)
    ensures r == ReportOf(resource, decode)
  {
    var coding :- FirstCoding(resource, "code");
    // `FirstCoding` has read `resource` as a dict, so the membership test and the
    // `.get` below cannot fail.
    var presented := "";
    var hasForms := Lookup(resource.members, "presentedForm");
    if hasForms.Some? {
      var forms :- Iter(hasForms.value);
      var i := 0;
      while i < |forms|
        invariant 0 <= i <= |forms|
        invariant FormsText(forms[..i], decode) == Success(presented)
      {
        assert forms[..i + 1][..i] == forms[..i];
        var piece := FormContribution(forms[i], decode);
        if piece.Failure? {
          FormsTextPrefixFailure(forms, i + 1, decode);
          return Failure(piece.error);
        }
        presented := presented + piece.value;
        i := i + 1;
      }
      assert forms[..i] == forms;
    }
    var effective :- DateWithFallback(resource, "effectiveDateTime", "effectivePeriod");
    r := ReportFields(resource, coding, effective, presented);
  }

  /** Once a prefix of the forms fails, the whole list fails with the same fault. */
  lemma {:induction false} FormsTextPrefixFailure(forms: seq<Json>, n: nat, decode: string -> Option<string>)
    requires n <= |forms|
    requires FormsText(forms[..n], decode).Failure?
    ensures FormsText(forms, decode) == FormsText(forms[..n], decode)
    decreases |forms| - n
  {
    if n < |forms| {
      assert forms[..n + 1][..n] == forms[..n];
      FormsTextPrefixFailure(forms, n + 1, decode);
    } else {
      assert forms[..n] == forms;
    }
  }

  /** The first coding of an encounter's first `type`, an empty dict when it has no
      type. */
  function EncounterTypeCoding(resource: Json): Outcome<Json> {
    var typeList :- Get(resource, "type", JArr([]));
    if Truthy(typeList) then
      var first :- First(typeList);
      CodingOf(first)
    else
      Success(JObj([]))
  }

  /** The code and display of the first coding of an encounter's first `reasonCode`,
      both empty when it has no reason. */
  function EncounterReason(resource: Json): Outcome<(string, string)> {
    var reasonList :- Get(resource, "reasonCode", JArr([]));
    if Truthy(reasonList) then
      var first :- First(reasonList);
      var reasonCoding :- CodingOf(first);
      var code :- GetText(reasonCoding, "code", "");
      var display :- GetText(reasonCoding, "display", "");
      Success((code, display))
    else
      Success(("", ""))
  }

  /** `_extract_encounter`. */
  function EncounterOf(resource: Json): Outcome<EncounterInfo> {
    var typeCoding :- EncounterTypeCoding(resource);
    var classData :- Get(resource, "class", JObj([]));
    var period :- Get(resource, "period", JObj([]));
    var reason :- EncounterReason(resource);
    EncounterFields(resource, typeCoding, classData, period, reason)
  }

  /** The fields `_extract_encounter` reads once it holds the type coding, the class,
      the period and the reason; the type and reason displays fall back to a default
      when empty. */
  function EncounterFields(resource: Json, typeCoding: Json, classData: Json, period: Json, reason: (string, string))
    : (r: Outcome<EncounterInfo>)
    ensures r.Success? ==> r.value.typeDisplay != "" && r.value.reasonDisplay != ""
    ensures r.Success? ==> GetText(resource, "id", "") == Success(r.value.id)
    ensures r.Success? ==> GetText(typeCoding, "code", "") == Success(r.value.typeCode)
    ensures r.Success? ==> GetText(typeCoding, "display", "").Success?
    ensures r.Success? ==>
              var display := GetText(typeCoding, "display", "").value;
              r.value.typeDisplay == if display != "" then display else "General Encounter"
    ensures r.Success? ==>
              r.value.reasonCode == reason.0
              && r.value.reasonDisplay == if reason.1 != "" then reason.1 else "Routine follow-up"
    ensures r.Success? ==> GetText(classData, "display", "").Success?
    ensures r.Success? && GetText(classData, "display", "").value != "" ==>
              r.value.classDisplay == GetText(classData, "display", "").value
    ensures r.Success? && GetText(classData, "display", "").value == "" ==>
              Success(r.value.classDisplay) == GetText(classData, "code", "ambulatory")
  {
    var provider :- NestedText(resource, "serviceProvider", "display");
    var id :- GetText(resource, "id", "");
    var typeCode :- GetText(typeCoding, "code", "");
    var typeDisplay :- GetText(typeCoding, "display", "");
    var classCode :- GetText(classData, "code", "");
    var classDisplay :- GetText(classData, "display", "");
    var classFallback :- GetText(classData, "code", "ambulatory");
    var start :- GetText(period, "start", "");
    var end :- GetOptText(period, "end");
    Success(EncounterInfo(
      id,
      typeCode,
      if typeDisplay != "" then typeDisplay else "General Encounter",
      classCode,
      if classDisplay != "" then classDisplay else classFallback,
      start,
      end,
      reason.0,
      if reason.1 != "" then reason.1 else "Routine follow-up",
      provider))
  }

  /** The `valueString` of the first sub-extension whose `url` is `'text'`, if any. */
  function TextSubExtension(subs: seq<Json>): Outcome<Option<string>> {
    if subs == [] then Success(None)
    else
      var url :- Get(subs[0], "url", JNull);
      if url == JStr("text") then
        var text :- GetText(subs[0], "valueString", "");
        Success(Some(text))
      else
        TextSubExtension(subs[1..])
  }

  /** The `(race, ethnicity)` left after visiting `exts` from `(race, eth)`: each
      extension whose url contains `race` (else `ethnicity`) and that has a text
      sub-extension overwrites that field, so the last such extension wins. */
  function Demographics(exts: seq<Json>, race: string, eth: string): Outcome<(string, string)> {
    if exts == [] then Success((race, eth))
    else
      var url :- Get(exts[0], "url", JStr(""));
      var isRace :- In("race", url);
      var isEthnicity :- if isRace then Success(false) else In("ethnicity", url);
      if isRace || isEthnicity then
        var subList :- Get(exts[0], "extension", JArr([]));
        var subs :- Iter(subList);
        var text :- TextSubExtension(subs);
        if isRace then Demographics(exts[1..], text.GetOr(race), eth)
        else Demographics(exts[1..], race, text.GetOr(eth))
      else
        Demographics(exts[1..], race, eth)
  }

  /** The `value` of the first telecom whose system is `phone`, else `""`. */
  function FirstPhone(telecoms: seq<Json>): Outcome<string> {
    if telecoms == [] then Success("")
    else
      var system :- Get(telecoms[0], "system", JNull);
      if system == JStr("phone") then GetText(telecoms[0], "value", "")
      else FirstPhone(telecoms[1..])
  }

  /** The full name and the one-line address `_extract_patient` assembles. */
  function NameAndAddress(resource: Json): Outcome<(string, string)> {
    var names :- Get(resource, "name", JArr([JObj([])]));
    var nameParts :- First(names);
    var givenList :- Get(nameParts, "given", JArr([]));
    var given :- JoinText(givenList, " ");
    var family :- GetText(nameParts, "family", "");
    var addresses :- Get(resource, "address", JArr([JObj([])]));
    var addressParts :- First(addresses);
    var lines :- Get(addressParts, "line", JArr([]));
    var city :- GetText(addressParts, "city", "");
    var state :- GetText(addressParts, "state", "");
    var postal :- GetText(addressParts, "postalCode", "");
    var street :- JoinText(lines, ", ");
    Success((Strip(given + " " + family),
             StripBy(street + ", " + city + ", " + state + " " + postal, IsCommaOrSpace)))
  }

  /** The fields `_extract_patient` reads after its loops. */
  function PatientFields(resource: Json, nameAddress: (string, string), phone: string,
                         demographics: (string, string)): (r: Outcome<Patient>)
    ensures r.Success? ==> (r.value.name, r.value.address) == nameAddress && r.value.phone == phone
                           && (r.value.race, r.value.ethnicity) == demographics
    ensures r.Success? ==> PatientTexts(resource, r.value)
  {
    var id :- GetText(resource, "id", "");
    var birth :- GetText(resource, "birthDate", "");
    var gender :- GetText(resource, "gender", "");
    var marital :- NestedText(resource, "maritalStatus", "text");
    Success(Patient(id, nameAddress.0, birth, gender, demographics.0, demographics.1,
                    marital, nameAddress.1, phone))
  }

  /** The patient's `id`, `birth_date`, `gender` and `marital_status` are the
      resource's `id`, `birthDate`, `gender` and `maritalStatus.text`. */
  predicate PatientTexts(resource: Json, p: Patient) {
    && GetText(resource, "id", "") == Success(p.id)
    && GetText(resource, "birthDate", "") == Success(p.birthDate)
    && GetText(resource, "gender", "") == Success(p.gender)
    && NestedText(resource, "maritalStatus", "text") == Success(p.maritalStatus)
  }

  /** `_extract_patient`, as a value. */
  function PatientOf(resource: Json): Outcome<Patient> {
    var nameAddress :- NameAndAddress(resource);
    var telecomList :- Get(resource, "telecom", JArr([]));
    var telecoms :- Iter(telecomList);
    var phone :- FirstPhone(telecoms);
    var extList :- Get(resource, "extension", JArr([]));
    var exts :- Iter(extList);
    var demographics :- Demographics(exts, "", "");
    PatientFields(resource, nameAddress, phone, demographics)
  }

  /** `_extract_patient`: the name and address, the telecom scan, the extension scan,
      then the remaining fields. */
  method ExtractPatient(resource: Json) returns (r: Outcome<Patient>)
    ensures r == PatientOf(resource)
  {
    var nameAddress :- NameAndAddress(resource);
    // `NameAndAddress` has read `resource` as a dict, so the `.get`s cannot fail.
    var telecoms :- Iter(Lookup(resource.members, "telecom").GetOr(JArr([])));
    var phone :- FindPhone(telecoms);
    var exts :- Iter(Lookup(resource.members, "extension").GetOr(JArr([])));
    var demographics :- ScanExtensions(exts);
    r := PatientFields(resource, nameAddress, phone, demographics);
  }

  /** The telecom loop: stops at the first phone. */
  method FindPhone(telecoms: seq<Json>) returns (r: Outcome<string>)
    ensures r == FirstPhone(telecoms)
  {
    var i := 0;
    while i < |telecoms|
      invariant 0 <= i <= |telecoms|
      invariant FirstPhone(telecoms) == FirstPhone(telecoms[i..])
    {
      var system :- Get(telecoms[i], "system", JNull);
      if system == JStr("phone") {
        r := GetText(telecoms[i], "value", "");
        return;
      }
      assert telecoms[i..][1..] == telecoms[i + 1..];
      i := i + 1;
    }
    return Success("");
  }

  /** The inner extension loop: stops at the first text entry. */
  method FindText(subs: seq<Json>) returns (r: Outcome<Option<string>>)
    ensures r == TextSubExtension(subs)
  {
    var k := 0;
    while k < |subs|
      invariant 0 <= k <= |subs|
      invariant TextSubExtension(subs) == TextSubExtension(subs[k..])
    {
      var url :- Get(subs[k], "url", JNull);
      if url == JStr("text") {
        var text :- GetText(subs[k], "valueString", "");
        return Success(Some(text));
      }
      assert subs[k..][1..] == subs[k + 1..];
      k := k + 1;
    }
    return Success(None);
  }

  /** The outer extension loop: every extension is visited. */
  method ScanExtensions(exts: seq<Json>) returns (r: Outcome<(string, string)>)
    ensures r == Demographics(exts, "", "")
  {
    var race, ethnicity := "", "";
    var j := 0;
    while j < |exts|
      invariant 0 <= j <= |exts|
      invariant Demographics(exts, "", "") == Demographics(exts[j..], race, ethnicity)
    {
      var ext := exts[j];
      assert exts[j..][0] == ext && exts[j..][1..] == exts[j + 1..];
      var url :- Get(ext, "url", JStr(""));
      var isRace :- In("race", url);
      var isEthnicity := false;
      if !isRace {
        isEthnicity :- In("ethnicity", url);
      }
      if isRace || isEthnicity {
        var subList :- Get(ext, "extension", JArr([]));
        var subs :- Iter(subList);
        var text :- FindText(subs);
        if text.Some? {
          if isRace { race := text.value; } else { ethnicity := text.value; }
        }
      }
      j := j + 1;
    }
    return Success((race, ethnicity));
  }

  // Properties of the extractors.

  /** A coded concept whose `coding` list is empty makes `[0]` raise `IndexError`,
      and the extractors that read `code` first fail with it. */
  lemma EmptyCodingFails(resource: Json, concept: seq<(string, Json)>, decode: string -> Option<string>)
    requires resource.JObj? && Lookup(resource.members, "code") == Some(JObj(concept))
    requires Lookup(concept, "coding") == Some(JArr([]))
    ensures ConditionOf(resource) == Failure(IndexError)
    ensures ObservationOf(resource) == Failure(IndexError)
    ensures ProcedureOf(resource) == Failure(IndexError)
    ensures ReportOf(resource, decode) == Failure(IndexError)
  {
  }

  /** The date-time field when it is non-empty; otherwise the period's start when the
      period key is present; otherwise empty. */
  lemma {:induction false} DateFallbackRule(resource: Json, dateKey: string, periodKey: string, date: string)
    requires GetText(resource, dateKey, "") == Success(date)
    ensures date != "" ==> DateWithFallback(resource, dateKey, periodKey) == Success(date)
    ensures date == "" && Lookup(resource.members, periodKey).None? ==>
              DateWithFallback(resource, dateKey, periodKey) == Success("")
    ensures date == "" && Lookup(resource.members, periodKey).Some? ==>
              DateWithFallback(resource, dateKey, periodKey)
                == GetText(Lookup(resource.members, periodKey).value, "start", "")
  {
  }

  /** `performed_date` and the report's `effective_date` follow that rule. */
  lemma {:induction false} ProcedureAndReportDates(resource: Json, decode: string -> Option<string>)
    ensures ProcedureOf(resource).Success? ==>
              DateWithFallback(resource, "performedDateTime", "performedPeriod")
                == Success(ProcedureOf(resource).value.performedDate)
    ensures ReportOf(resource, decode).Success? ==>
              DateWithFallback(resource, "effectiveDateTime", "effectivePeriod")
                == Success(ReportOf(resource, decode).value.effectiveDate)
  {
  }

  /** `reason_display` of a medication or procedure is the marker exactly when
      `reasonReference` is non-empty, and empty otherwise; `reason_code` stays empty. */
  lemma ReasonDisplayRule(resource: Json)
    requires resource.JObj?
    ensures var refs := Lookup(resource.members, "reasonReference").GetOr(JArr([]));
            && (MedicationOf(resource).Success? ==>
                  var m := MedicationOf(resource).value;
                  m.reasonCode == "" && (m.reasonDisplay == "See conditions" <==> Truthy(refs))
                  && (!Truthy(refs) ==> m.reasonDisplay == ""))
            && (ProcedureOf(resource).Success? ==>
                  var p := ProcedureOf(resource).value;
                  p.reasonCode == "" && (p.reasonDisplay == "See conditions" <==> Truthy(refs))
                  && (!Truthy(refs) ==> p.reasonDisplay == ""))
  {
  }

  /** The type display is the display of the first type's first coding, else
      `General Encounter`; the reason display is that of the first reason's first
      coding, else `Routine follow-up`. Neither is ever empty. */
  lemma EncounterDisplayDefaults(resource: Json)
    requires EncounterOf(resource).Success?
    ensures EncounterOf(resource).value.typeDisplay != ""
    ensures EncounterOf(resource).value.reasonDisplay != ""
    ensures EncounterTypeCoding(resource).Success?
    ensures GetText(EncounterTypeCoding(resource).value, "display", "").Success?
    ensures var display := GetText(EncounterTypeCoding(resource).value, "display", "").value;
            EncounterOf(resource).value.typeDisplay
              == if display != "" then display else "General Encounter"
    ensures EncounterReason(resource).Success?
    ensures var display := EncounterReason(resource).value.1;
            EncounterOf(resource).value.reasonDisplay
              == if display != "" then display else "Routine follow-up"
  {
  }

  /** An encounter whose type list is absent or empty reads its type from an empty
      coding, and one whose reason list is absent or empty has an empty reason; otherwise
      the reason display is the display of the first reason's first coding. */
  lemma EncounterFirstCodings(resource: Json)
    requires resource.JObj?
    ensures !Truthy(Lookup(resource.members, "type").GetOr(JArr([]))) ==>
              EncounterTypeCoding(resource) == Success(JObj([]))
    ensures !Truthy(Lookup(resource.members, "reasonCode").GetOr(JArr([]))) ==>
              EncounterReason(resource) == Success(("", ""))
    ensures var reasons := Lookup(resource.members, "reasonCode").GetOr(JArr([]));
            Truthy(reasons) && EncounterReason(resource).Success? ==>
              && First(reasons).Success?
              && CodingOf(First(reasons).value).Success?
              && GetText(CodingOf(First(reasons).value).value, "display", "")
                   == Success(EncounterReason(resource).value.1)
  {
  }

  /** The class display is the class's display, else its code when the key is present
      (even an empty one), else `ambulatory`. */
  lemma EncounterClassDisplay(resource: Json, classData: Json, display: string)
    requires EncounterOf(resource).Success?
    requires Get(resource, "class", JObj([])) == Success(classData)
    requires GetText(classData, "display", "") == Success(display)
    ensures display != "" ==> EncounterOf(resource).value.classDisplay == display
    ensures display == "" && In("code", classData) == Success(false) ==>
              EncounterOf(resource).value.classDisplay == "ambulatory"
    ensures display == "" && In("code", classData) == Success(true) ==>
              GetText(classData, "code", "") == Success(EncounterOf(resource).value.classDisplay)
  {
  }

  /** An encounter resource carrying only an id gets every default. */
  lemma BareEncounter(id: string)
    ensures EncounterOf(JObj([("id", JStr(id))]))
              == Success(EncounterInfo(id, "", "General Encounter", "", "ambulatory", "", None,
                                       "", "Routine follow-up", ""))
  {
    var resource := JObj([("id", JStr(id))]);
    LookupSingle("id", JStr(id));
    assert EncounterTypeCoding(resource) == Success(JObj([]));
    assert Get(resource, "class", JObj([])) == Success(JObj([]));
    assert Get(resource, "period", JObj([])) == Success(JObj([]));
    assert EncounterReason(resource) == Success(("", ""));
  }

  /** `_extract_condition` keeps the resource's id and encounter reference, the code and
      display of its first `code` coding, the code of its first `clinicalStatus` coding,
      the onset date and the abatement date when present and not null. */
  lemma ConditionContents(resource: Json)
    requires ConditionOf(resource).Success?
    ensures var c := ConditionOf(resource).value;
            && Identified(resource, c.id, c.encounterRef)
            && CodedBy(resource, "code", c.code, c.display)
            && FirstCoding(resource, "clinicalStatus").Success?
            && GetText(FirstCoding(resource, "clinicalStatus").value, "code", "") == Success(c.clinicalStatus)
            && GetText(resource, "onsetDateTime", "") == Success(c.onsetDate)
            && GetOptText(resource, "abatementDateTime") == Success(c.abatementDate)
  {
  }

  /** `_extract_medication` keeps the resource's id and encounter reference, the code and
      display of the first `medicationCodeableConcept` coding and no reason code; without
      dosage instructions the dosage text is empty. */
  lemma MedicationContents(resource: Json)
    requires MedicationOf(resource).Success?
    ensures resource.JObj?
    ensures var m := MedicationOf(resource).value;
            && Identified(resource, m.id, m.encounterRef)
            && CodedBy(resource, "medicationCodeableConcept", m.code, m.display)
            && m.reasonCode == ""
            && ReasonMarker(resource) == Success(m.reasonDisplay)
            && (!Truthy(Lookup(resource.members, "dosageInstruction").GetOr(JArr([]))) ==> m.dosageText == "")
  {
  }

  /** `_extract_observation` keeps the resource's id, encounter reference and effective
      date, and the code and display of its first `code` coding. */
  lemma ObservationContents(resource: Json)
    requires ObservationOf(resource).Success?
    ensures var o := ObservationOf(resource).value;
            && Identified(resource, o.id, o.encounterRef)
            && CodedBy(resource, "code", o.code, o.display)
            && GetText(resource, "effectiveDateTime", "") == Success(o.effectiveDate)
  {
  }

  /** `_extract_procedure` keeps the resource's id and encounter reference, the code and
      display of its first `code` coding and no reason code. */
  lemma ProcedureContents(resource: Json)
    requires ProcedureOf(resource).Success?
    ensures var p := ProcedureOf(resource).value;
            && Identified(resource, p.id, p.encounterRef)
            && CodedBy(resource, "code", p.code, p.display)
            && p.reasonCode == ""
            && ReasonMarker(resource) == Success(p.reasonDisplay)
  {
  }

  /** `_extract_immunization` keeps the resource's id and encounter reference, the code of
      its first `vaccineCode` coding, and the dose number and series of its protocol. */
  lemma ImmunizationContents(resource: Json)
    requires ImmunizationOf(resource).Success?
    ensures var im := ImmunizationOf(resource).value;
            && Identified(resource, im.id, im.encounterRef)
            && FirstCoding(resource, "vaccineCode").Success?
            && GetText(FirstCoding(resource, "vaccineCode").value, "code", "") == Success(im.vaccineCode)
            && ProtocolInfo(resource) == Success((im.doseNumber, im.series))
  {
  }

  /** `_extract_diagnostic_report` keeps the resource's id and encounter reference, the
      code and display of its first `code` coding, and the text of its presented forms. */
  lemma ReportContents(resource: Json, decode: string -> Option<string>)
    requires ReportOf(resource, decode).Success?
    ensures var d := ReportOf(resource, decode).value;
            && Identified(resource, d.id, d.encounterRef)
            && CodedBy(resource, "code", d.code, d.display)
            && PresentedForm(resource, decode) == Success(d.presentedForm)
  {
  }

  /** `_extract_encounter` keeps the resource's id and the code of its first type
      coding, and the reason code of its first reason coding. */
  lemma EncounterContents(resource: Json)
    requires EncounterOf(resource).Success?
    ensures var e := EncounterOf(resource).value;
            && GetText(resource, "id", "") == Success(e.id)
            && EncounterTypeCoding(resource).Success?
            && GetText(EncounterTypeCoding(resource).value, "code", "") == Success(e.typeCode)
            && EncounterReason(resource).Success?
            && e.reasonCode == EncounterReason(resource).value.0
  {
  }

  /** `_extract_patient` keeps the resource's id, birth date, gender and marital status,
      and the name and address it assembles. */
  lemma PatientContents(resource: Json)
    requires PatientOf(resource).Success?
    ensures PatientTexts(resource, PatientOf(resource).value)
    ensures NameAndAddress(resource) == Success((PatientOf(resource).value.name, PatientOf(resource).value.address))
  {
  }

  /** A condition is active exactly when the code of its first `clinicalStatus` coding
      is `active` and its `abatementDateTime` is absent, null or empty. */
  lemma ConditionActiveRule(resource: Json)
    requires ConditionOf(resource).Success?
    ensures resource.JObj? && FirstCoding(resource, "clinicalStatus").Success?
    ensures var status := GetText(FirstCoding(resource, "clinicalStatus").value, "code", "");
            var abatement := Lookup(resource.members, "abatementDateTime");
            ConditionOf(resource).value.IsActive() <==>
              status == Success("active")
              && (abatement.None? || abatement == Some(JNull) || abatement == Some(JStr("")))
  {
  }

  /** Every extractor starts with a `.get` on the resource, so a resource that is not a
      dict fails with `AttributeError` whatever kind it claims to be. */
  lemma NonDictResourceFails(resource: Json, decode: string -> Option<string>)
    requires !resource.JObj?
    ensures PatientOf(resource) == Failure(AttributeError)
    ensures EncounterOf(resource) == Failure(AttributeError)
    ensures ConditionOf(resource) == Failure(AttributeError)
    ensures MedicationOf(resource) == Failure(AttributeError)
    ensures ObservationOf(resource) == Failure(AttributeError)
    ensures ProcedureOf(resource) == Failure(AttributeError)
    ensures ImmunizationOf(resource) == Failure(AttributeError)
    ensures ReportOf(resource, decode) == Failure(AttributeError)
  {
  }

  /** A report without `presentedForm` has an empty note text. */
  lemma NoPresentedForm(resource: Json, decode: string -> Option<string>)
    requires resource.JObj? && Lookup(resource.members, "presentedForm").None?
    ensures ReportOf(resource, decode).Success? ==> ReportOf(resource, decode).value.presentedForm == ""
  {
  }

  /** What one dict form adds: nothing without `data`, string data's decoding and a
      newline, or the raw text when it does not decode, and data of any other kind fails. */
  lemma FormContributionRule(f: Json, decode: string -> Option<string>)
    requires f.JObj?
    ensures var data := Lookup(f.members, "data");
            && (data.None? ==> FormContribution(f, decode) == Success(""))
            && (data.Some? && data.value.JStr? ==>
                  FormContribution(f, decode) ==
                    match decode(data.value.s)
                    case Some(text) => Success(text + "\n")
                    case None => Success(data.value.s))
            && (data.Some? && !data.value.JStr? ==> FormContribution(f, decode) == Failure(TypeError))
  {
  }

  /** Appending a form to a list whose text is `s` extends that text by the form's
      contribution, or fails with it. */
  lemma FormsAppend(forms: seq<Json>, f: Json, s: string, decode: string -> Option<string>)
    requires FormsText(forms, decode) == Success(s) && f.JObj?
    ensures Lookup(f.members, "data").None? ==> FormsText(forms + [f], decode) == Success(s)
    ensures var data := Lookup(f.members, "data");
            data.Some? && data.value.JStr? ==>
              var a := data.value.s;
              FormsText(forms + [f], decode)
                == Success(if decode(a).Some? then s + decode(a).value + "\n" else s + a)
    ensures (Lookup(f.members, "data").Some? && !Lookup(f.members, "data").value.JStr?)
              ==> FormsText(forms + [f], decode) == Failure(TypeError)
  {
    var all := forms + [f];
    assert all[..|all| - 1] == forms && all[|all| - 1] == f;
    FormContributionRule(f, decode);
    var piece := FormContribution(f, decode);
    assert piece.Success? ==> FormsText(all, decode) == Success(s + piece.value);
    assert piece.Failure? ==> FormsText(all, decode) == Failure(piece.error);
    var data := Lookup(f.members, "data");
    if data.None? {
      assert s + "" == s;
    } else if data.value.JStr? && decode(data.value.s).Some? {
      var text := decode(data.value.s).value;
      assert s + (text + "\n") == s + text + "\n";
    }
  }

  /** The vaccine display is the coding's display, else the concept's `text`; the dose
      and series are read only when `protocolApplied` is present. */
  lemma ImmunizationDisplayRule(resource: Json)
    requires ImmunizationOf(resource).Success?
    ensures resource.JObj?
    ensures var im := ImmunizationOf(resource).value;
            var display := GetText(FirstCoding(resource, "vaccineCode").value, "display", "");
            && display.Success?
            && (display.value != "" ==> im.vaccineDisplay == display.value)
            && (display.value == "" ==> Success(im.vaccineDisplay) == NestedText(resource, "vaccineCode", "text"))
            && (Lookup(resource.members, "protocolApplied").None? ==> im.doseNumber.None? && im.series.None?)
            && (Lookup(resource.members, "protocolApplied").Some? ==> im.series.Some?)
  {
  }

  /** An observation's value comes from `valueQuantity`, else `valueCodeableConcept`,
      else `valueString`, else it is `None`; only a quantity carries a unit. */
  lemma ObservationValueRule(resource: Json)
    requires ObservationOf(resource).Success?
    ensures resource.JObj?
    ensures var o := ObservationOf(resource).value;
            var q := Lookup(resource.members, "valueQuantity");
            var c := Lookup(resource.members, "valueCodeableConcept");
            var v := Lookup(resource.members, "valueString");
            && (q.Some? ==> Get(q.value, "value", JNull) == Success(o.value)
                            && GetText(q.value, "unit", "") == Success(o.unit))
            && (q.None? && c.Some? ==> Get(c.value, "text", JStr("")) == Success(o.value) && o.unit == "")
            && (q.None? && c.None? && v.Some? ==> o.value == v.value && o.unit == "")
            && (q.None? && c.None? && v.None? ==> o.value == JNull && o.unit == "")
  {
  }

  /** With no `name` and no `address`, both read as empty once stripped. */
  lemma BareNameAndAddress(id: string)
    ensures NameAndAddress(JObj([("id", JStr(id))])) == Success(("", ""))
  {
    LookupSingle("id", JStr(id));
    StripByAll("" + " " + "", IsSpace);
    StripByAll("" + ", " + "" + ", " + "" + " " + "", IsCommaOrSpace);
  }

  /** A patient resource carrying only an id: every other field is empty, the address
      included, since the separators of an empty address are stripped away. */
  lemma BarePatient(id: string)
    ensures PatientOf(JObj([("id", JStr(id))])) == Success(Patient(id, "", "", "", "", "", "", "", ""))
  {
    var resource := JObj([("id", JStr(id))]);
    LookupSingle("id", JStr(id));
    BareNameAndAddress(id);
    assert Get(resource, "telecom", JArr([])) == Success(JArr([]));
    assert Get(resource, "extension", JArr([])) == Success(JArr([]));
    assert PatientFields(resource, ("", ""), "", ("", ""))
           == Success(Patient(id, "", "", "", "", "", "", "", ""));
  }
}
