/**
 * The clinical entities the extractor builds from FHIR R4 resources, the per-date
 * bucket of the record's date index and the per-encounter reference lists.
 */
module FhirModel {
  import opened Wrappers
  import opened Text
  import opened JsonValue

  /** The year `age` counts from. */
  const AgeYear := 2025

  datatype Patient = Patient(
    id: string,
    name: string,
    birthDate: string,
    gender: string,
    race: string,
    ethnicity: string,
    maritalStatus: string,
    address: string,
    phone: string)
  {
    /** `age`: 2025 minus the year of birth, the text of `birthDate` up to its first
        `-`. `None` where that text is not a plain run of ASCII digits (the Python code's
        `int()` then raises, or accepts a form this model does not read). */
    function Age(): Option<int> {
      var year := Split(birthDate, '-')[0];
      if year != [] && AllDigits(year) then Some(AgeYear - DigitsValue(year)) else None
    }
  }

  datatype Condition = Condition(
    id: string,
    code: string,
    display: string,
    clinicalStatus: string,
    onsetDate: string,
    abatementDate: Option<string>,
    encounterRef: string)
  {
    /** `is_active`. */
    predicate IsActive() {
      clinicalStatus == "active" && (abatementDate.None? || abatementDate.value == "")
    }
  }

  datatype Medication = Medication(
    id: string,
    code: string,
    display: string,
    status: string,
    authoredOn: string,
    dosageText: string,
    reasonCode: string,
    reasonDisplay: string,
    encounterRef: string)

  /** `value` is whatever JSON the resource carries there; nothing computes with it. */
  datatype Observation = Observation(
    id: string,
    code: string,
    display: string,
    value: Json,
    unit: string,
    effectiveDate: string,
    category: string,
    encounterRef: string)

  datatype Procedure = Procedure(
    id: string,
    code: string,
    display: string,
    performedDate: string,
    status: string,
    reasonCode: string,
    reasonDisplay: string,
    encounterRef: string)

  datatype Immunization = Immunization(
    id: string,
    vaccineCode: string,
    vaccineDisplay: string,
    occurrenceDate: string,
    status: string,
    encounterRef: string,
    doseNumber: Option<int>,
    series: Option<string>)

  datatype DiagnosticReport = DiagnosticReport(
    id: string,
    code: string,
    display: string,
    effectiveDate: string,
    conclusion: string,
    presentedForm: string,
    encounterRef: string)

  /** The fields of an `Encounter` the extractor fills from the resource; the six link
      lists live on the record's encounter objects. */
  datatype EncounterInfo = EncounterInfo(
    id: string,
    typeCode: string,
    typeDisplay: string,
    classCode: string,
    classDisplay: string,
    startDate: string,
    endDate: Option<string>,
    reasonCode: string,
    reasonDisplay: string,
    serviceProvider: string)

  /** One value of `events_by_date`: the seven per-kind lists, with the encounter
      entries of type `E`. */
  datatype Bucket<E> = Bucket(
    encounters: seq<E>,
    conditions: seq<Condition>,
    medications: seq<Medication>,
    observations: seq<Observation>,
    procedures: seq<Procedure>,
    immunizations: seq<Immunization>,
    diagnosticReports: seq<DiagnosticReport>)

  function EmptyBucket<E>(): Bucket<E> {
    Bucket([], [], [], [], [], [], [])
  }

  /** The ids of the resources that reference one encounter, one list per kind. */
  datatype RefLists = RefLists(
    conditions: seq<string>,
    medications: seq<string>,
    observations: seq<string>,
    procedures: seq<string>,
    immunizations: seq<string>,
    diagnosticReports: seq<string>)

  function NoRefs(): RefLists {
    RefLists([], [], [], [], [], [])
  }

  /** The age of a patient born in `YYYY-...` is 2025 minus `YYYY`. */
  lemma AgeOfIsoDate(p: Patient, year: string, rest: string)
    requires year != [] && AllDigits(year)
    requires p.birthDate == year + "-" + rest
    ensures p.Age() == Some(2025 - DigitsValue(year))
  {
    var s := p.birthDate;
    SplitFirst(s, '-');
    var first := Split(s, '-')[0];
    assert '-' !in first;
    assert forall i :: 0 <= i < |year| ==> s[i] == year[i] && IsAsciiDigit(s[i]);
    assert forall i :: 0 <= i < |first| ==> s[i] != '-';
    assert s[|year|] == '-';
    assert first == year;
  }

  /** A birth date without digits before its first `-` has no age. */
  lemma NoAgeWithoutYear(p: Patient, rest: string)
    requires p.birthDate == "-" + rest || p.birthDate == ""
    ensures p.Age() == None
  {
    SplitFirst(p.birthDate, '-');
  }
}
