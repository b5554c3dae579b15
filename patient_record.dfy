/**
 * The patient record the walk fills in: one insertion-ordered dict per resource kind,
 * the encounter objects (which the second pass links in place and the date index
 * shares), the date index itself, and the record's queries.
 */
module PatientRecords {
  import opened Wrappers
  import opened Text
  import opened Seqs
  import opened OrderedDict
  import opened FhirModel

  /** An `Encounter`: the fields read from the resource never change; the six link
      lists are assigned by the second pass. */
  class Encounter {
    const info: EncounterInfo
    var conditions: seq<string>
    var medications: seq<string>
    var observations: seq<string>
    var procedures: seq<string>
    var immunizations: seq<string>
    var diagnosticReports: seq<string>

    constructor (info: EncounterInfo)
      ensures this.info == info && Links() == NoRefs()
    {
      this.info := info;
      conditions, medications, observations := [], [], [];
      procedures, immunizations, diagnosticReports := [], [], [];
    }

    /** The six link lists together. */
    function Links(): RefLists
      reads this
    {
      RefLists(conditions, medications, observations, procedures, immunizations, diagnosticReports)
    }

    /** The second pass's six assignments. */
    method Link(refs: RefLists)
      modifies this
      ensures Links() == refs
    {
      conditions := refs.conditions;
      medications := refs.medications;
      observations := refs.observations;
      procedures := refs.procedures;
      immunizations := refs.immunizations;
      diagnosticReports := refs.diagnosticReports;
    }
  }

  /** `get_encounter_context`'s dict. */
  datatype Context = Context(
    encounter: Encounter,
    conditions: seq<Condition>,
    medications: seq<Medication>,
    observations: seq<Observation>,
    procedures: seq<Procedure>,
    immunizations: seq<Immunization>,
    diagnosticReports: seq<DiagnosticReport>,
    patient: Option<Patient>,
    activeProblems: seq<Condition>,
    currentMedications: seq<Medication>)

  /** The encounter fields of a sequence of encounter objects. */
  function InfoSeq(es: seq<Encounter>): (r: seq<EncounterInfo>)
    ensures |r| == |es| && forall i :: 0 <= i < |es| ==> r[i] == es[i].info
  {
    seq(|es|, i requires 0 <= i < |es| => es[i].info)
  }

  /** A bucket with each encounter object replaced by its fields. */
  function BucketView(b: Bucket<Encounter>): Bucket<EncounterInfo> {
    Bucket(InfoSeq(b.encounters), b.conditions, b.medications, b.observations,
           b.procedures, b.immunizations, b.diagnosticReports)
  }

  /** The date index with each encounter object replaced by its fields. */
  function IndexView(d: Dict<Bucket<Encounter>>): Dict<Bucket<EncounterInfo>> {
    Dict(d.keys, map k | k in d.m :: BucketView(d.m[k]))
  }

  /** The encounter objects the date index holds. */
  function IndexObjects(d: Dict<Bucket<Encounter>>): (r: set<Encounter>)
    ensures forall k, i :: k in d.m && 0 <= i < |d.m[k].encounters| ==> d.m[k].encounters[i] in r
  {
    set k, i | k in d.m && 0 <= i < |d.m[k].encounters| :: d.m[k].encounters[i]
  }

  /** The encounter dict with each object replaced by its fields. */
  function InfoDict(d: Dict<Encounter>): Dict<EncounterInfo> {
    Dict(d.keys, map k | k in d.m :: d.m[k].info)
  }

  class PatientRecord {
    var patient: Option<Patient>
    var conditions: Dict<Condition>
    var medications: Dict<Medication>
    var observations: Dict<Observation>
    var procedures: Dict<Procedure>
    var encounters: Dict<Encounter>
    var immunizations: Dict<Immunization>
    var diagnosticReports: Dict<DiagnosticReport>
    var eventsByDate: Dict<Bucket<Encounter>>

    /** `PatientRecord(patient=None)`. */
    constructor ()
      ensures patient == None && Valid()
      ensures conditions == Empty() && medications == Empty() && observations == Empty()
      ensures procedures == Empty() && encounters == Empty() && immunizations == Empty()
      ensures diagnosticReports == Empty() && eventsByDate == Empty()
    {
      patient := None;
      conditions, medications, observations := Empty(), Empty(), Empty();
      procedures, encounters, immunizations := Empty(), Empty(), Empty();
      diagnosticReports, eventsByDate := Empty(), Empty();
    }

    /** Every dict is a well-formed insertion-ordered dict. */
    predicate Valid()
      reads this
    {
      && conditions.Valid() && medications.Valid() && observations.Valid()
      && procedures.Valid() && encounters.Valid() && immunizations.Valid()
      && diagnosticReports.Valid() && eventsByDate.Valid()
    }

    /** `get_active_conditions`: the active conditions, in the dict's order. */
    function ActiveConditions(): (r: seq<Condition>)
      reads this
      requires Valid()
      ensures forall i :: 0 <= i < |r| ==> r[i] in conditions.m.Values && r[i].IsActive()
      ensures forall k :: k in conditions.m && conditions.m[k].IsActive() ==> conditions.m[k] in r
      ensures IsSubsequence(r, conditions.Values())
    {
      var all := conditions.Values();
      ValuesComplete(conditions);
      Filter(all, (c: Condition) => c.IsActive())
    }

    /** `get_current_medications`: the medications whose status is `active`, in the
        dict's order. */
    function CurrentMedications(): (r: seq<Medication>)
      reads this
      requires Valid()
      ensures forall i :: 0 <= i < |r| ==> r[i] in medications.m.Values && r[i].status == "active"
      ensures forall k :: k in medications.m && medications.m[k].status == "active"
                          ==> medications.m[k] in r
      ensures IsSubsequence(r, medications.Values())
    {
      var all := medications.Values();
      ValuesComplete(medications);
      Filter(all, (m: Medication) => m.status == "active")
    }

    /** `get_events_for_date`: the bucket of the date's first ten characters, or one
        with all seven lists empty. */
    function EventsForDate(date: string): (r: Bucket<Encounter>)
      reads this
      ensures Prefix(date, 10) in eventsByDate.m ==> r == eventsByDate.m[Prefix(date, 10)]
      ensures Prefix(date, 10) !in eventsByDate.m ==> r == EmptyBucket()
    {
      eventsByDate.GetOr(Prefix(date, 10), EmptyBucket())
    }

    /** `get_encounter_context`: nothing for an unknown id; otherwise the encounter,
        the six non-encounter lists of its start date's bucket, the patient and the
        two filters. */
    function EncounterContext(id: string): (r: Option<Context>)
      reads this
      requires Valid()
      ensures r.None? <==> id !in encounters.m
      ensures r.Some? ==>
                var e := encounters.m[id];
                var b := EventsForDate(e.info.startDate);
                && r.value.encounter == e
                && r.value.conditions == b.conditions && r.value.medications == b.medications
                && r.value.observations == b.observations && r.value.procedures == b.procedures
                && r.value.immunizations == b.immunizations
                && r.value.diagnosticReports == b.diagnosticReports
                && r.value.patient == patient
                && r.value.activeProblems == ActiveConditions()
                && r.value.currentMedications == CurrentMedications()
    {
      match encounters.Get(id)
      case None => None
      case Some(e) =>
        var b := EventsForDate(e.info.startDate);
        Some(Context(e, b.conditions, b.medications, b.observations, b.procedures,
                     b.immunizations, b.diagnosticReports, patient,
                     ActiveConditions(), CurrentMedications()))
    }

    /** A full timestamp and its date select the same bucket. */
    lemma EventsForTimestamp(date: string, rest: string)
      requires |date| == 10
      ensures EventsForDate(date + rest) == EventsForDate(date)
    {
      assert (date + rest)[..10] == date;
    }
  }
}
