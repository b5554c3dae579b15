/**
 * `extract_patient_record`: the walk over a bundle's entries and the second pass that
 * links encounters to the resources that reference them.
 *
 * The specification side classifies the entries into `Resource`s and describes each
 * part of the finished record as a fold over them (`Collect`, `EventsIndex`,
 * `RefsIndex`, `LastPatient`); lemmas give each fold its declarative meaning. The
 * method fills a `PatientRecord` entry by entry and is proved to end in that state.
 */
module BundleWalk {
  import opened Wrappers
  import opened Text
  import opened OrderedDict
  import opened JsonValue
  import opened FhirModel
  import opened FhirExtract
  import opened PatientRecords

  /** One bundle entry after extraction. */
  datatype Resource =
    | PatientResource(patient: Patient)
    | EncounterResource(encounter: EncounterInfo)
    | ConditionResource(condition: Condition)
    | MedicationResource(medication: Medication)
    | ObservationResource(observation: Observation)
    | ProcedureResource(procedure: Procedure)
    | ImmunizationResource(immunization: Immunization)
    | ReportResource(report: DiagnosticReport)
    /** A missing or unrecognised `resourceType`: the entry changes nothing. */
    | Unrecognised

  /** The entry list, `bundle.get('entry', [])`, as the loop visits it. */
  function Entries(bundle: Json): Outcome<seq<Json>> {
    var list :- Get(bundle, "entry", JArr([]));
    Iter(list)
  }

  /** The `resourceType` of an entry's resource, `None` when it has none. */
  function EntryKind(entry: Json): Outcome<Json> {
    var resource :- Get(entry, "resource", JObj([]));
    Get(resource, "resourceType", JNull)
  }

  /** The resource types the walk extracts. */
  datatype Kind =
    | PatientKind | EncounterKind | ConditionKind | MedicationKind
    | ObservationKind | ProcedureKind | ImmunizationKind | ReportKind

  /** The kind a `resourceType` value names; `None` for any other value, or none. */
  function KindOf(kind: Json): Option<Kind> {
    if kind == JStr("Patient") then Some(PatientKind)
    else if kind == JStr("Encounter") then Some(EncounterKind)
    else if kind == JStr("Condition") then Some(ConditionKind)
    else if kind == JStr("MedicationRequest") then Some(MedicationKind)
    else if kind == JStr("Observation") then Some(ObservationKind)
    else if kind == JStr("Procedure") then Some(ProcedureKind)
    else if kind == JStr("Immunization") then Some(ImmunizationKind)
    else if kind == JStr("DiagnosticReport") then Some(ReportKind)
    else None
  }

  /** The kind an extracted resource is filed under. */
  function KindOfResource(r: Resource): Option<Kind> {
    match r
    case PatientResource(_) => Some(PatientKind)
    case EncounterResource(_) => Some(EncounterKind)
    case ConditionResource(_) => Some(ConditionKind)
    case MedicationResource(_) => Some(MedicationKind)
    case ObservationResource(_) => Some(ObservationKind)
    case ProcedureResource(_) => Some(ProcedureKind)
    case ImmunizationResource(_) => Some(ImmunizationKind)
    case ReportResource(_) => Some(ReportKind)
    case Unrecognised => None
  }

  /** The extractor of one kind, run on an entry's resource. */
  function Extract(k: Kind, resource: Json, decode: string -> Option<string>): (r: Outcome<Resource>)
    ensures r.Success? ==> KindOfResource(r.value) == Some(k)
  {
    match k
    case PatientKind => Wrap(PatientOf(resource), p => PatientResource(p))
    case EncounterKind => Wrap(EncounterOf(resource), e => EncounterResource(e))
    case _ => ExtractClinical(k, resource, decode)
  }

  /** The extractor of one of the six clinical kinds. */
  function ExtractClinical(k: Kind, resource: Json, decode: string -> Option<string>): (r: Outcome<Resource>)
    requires !k.PatientKind? && !k.EncounterKind?
    ensures r.Success? ==> KindOfResource(r.value) == Some(k)
  {
    match k
    case ConditionKind => Wrap(ConditionOf(resource), c => ConditionResource(c))
    case MedicationKind => Wrap(MedicationOf(resource), m => MedicationResource(m))
    case ObservationKind => Wrap(ObservationOf(resource), o => ObservationResource(o))
    case ProcedureKind => Wrap(ProcedureOf(resource), p => ProcedureResource(p))
    case ImmunizationKind => Wrap(ImmunizationOf(resource), i => ImmunizationResource(i))
    case ReportKind => Wrap(ReportOf(resource, decode), d => ReportResource(d))
  }

  /** An extractor's outcome as a resource: its fault, or its entity wrapped. */
  function Wrap<T>(o: Outcome<T>, wrap: T -> Resource): (r: Outcome<Resource>)
    ensures r.Success? <==> o.Success?
    ensures r.Success? ==> r.value == wrap(o.value)
    ensures r.Failure? ==> r.error == o.error
  {
    var x :- o; Success(wrap(x))
  }

  /** The dispatch on `resourceType` for one entry: a known type selects its extractor,
      and an entry is unrecognised exactly when its type is none of the known ones. */
  function Classify(entry: Json, decode: string -> Option<string>): (r: Outcome<Resource>)
    ensures r.Success? ==> EntryKind(entry).Success?
    ensures r.Success? ==> KindOfResource(r.value) == KindOf(EntryKind(entry).value)
  {
    var resource :- Get(entry, "resource", JObj([]));
    var kind :- Get(resource, "resourceType", JNull);
    match KindOf(kind)
    case None => Success(Unrecognised)
    case Some(k) => Extract(k, resource, decode)
  }

  /** The dispatch on an entry whose resource or `resourceType` cannot be read: that fault. */
  lemma ClassifyFault(entry: Json, decode: string -> Option<string>)
    requires EntryKind(entry).Failure?
    ensures Classify(entry, decode) == Failure(EntryKind(entry).error)
  {
  }

  /** The dispatch on a `resourceType` outside the eight known ones: `Unrecognised`. */
  lemma ClassifyUnknownType(entry: Json, decode: string -> Option<string>)
    requires EntryKind(entry).Success? && KindOf(EntryKind(entry).value).None?
    ensures Classify(entry, decode) == Success(Unrecognised)
  {
  }

  /** The dispatch on a known `resourceType`: exactly what that type's extractor makes
      of the entry's resource. */
  lemma ClassifyDispatch(entry: Json, decode: string -> Option<string>)
    requires EntryKind(entry).Success? && KindOf(EntryKind(entry).value).Some?
    ensures Classify(entry, decode) ==
              Extract(KindOf(EntryKind(entry).value).value, Get(entry, "resource", JObj([])).value, decode)
  {
  }

  /** Every entry classified, in order; the earliest failing entry decides the fault. */
  function ClassifyAll(entries: seq<Json>, decode: string -> Option<string>): Outcome<seq<Resource>> {
    if entries == [] then Success([])
    else
      var init :- ClassifyAll(entries[..|entries| - 1], decode);
      var last :- Classify(entries[|entries| - 1], decode);
      Success(init + [last])
  }

  /** The resources of a bundle, or the fault the walk stops with. */
  function Resources(bundle: Json, decode: string -> Option<string>): Outcome<seq<Resource>> {
    var entries :- Entries(bundle);
    ClassifyAll(entries, decode)
  }

  // Selecting one kind.

  function PickEncounter(r: Resource): Option<EncounterInfo> {
    if r.EncounterResource? then Some(r.encounter) else None
  }
  function PickCondition(r: Resource): Option<Condition> {
    if r.ConditionResource? then Some(r.condition) else None
  }
  function PickMedication(r: Resource): Option<Medication> {
    if r.MedicationResource? then Some(r.medication) else None
  }
  function PickObservation(r: Resource): Option<Observation> {
    if r.ObservationResource? then Some(r.observation) else None
  }
  function PickProcedure(r: Resource): Option<Procedure> {
    if r.ProcedureResource? then Some(r.procedure) else None
  }
  function PickImmunization(r: Resource): Option<Immunization> {
    if r.ImmunizationResource? then Some(r.immunization) else None
  }
  function PickReport(r: Resource): Option<DiagnosticReport> {
    if r.ReportResource? then Some(r.report) else None
  }

  function EncounterKey(e: EncounterInfo): string { e.id }
  function ConditionKey(c: Condition): string { c.id }
  function MedicationKey(m: Medication): string { m.id }
  function ObservationKey(o: Observation): string { o.id }
  function ProcedureKey(p: Procedure): string { p.id }
  function ImmunizationKey(i: Immunization): string { i.id }
  function ReportKey(d: DiagnosticReport): string { d.id }

  /** The selected resources, in bundle order. */
  function Picks<T>(rs: seq<Resource>, pick: Resource -> Option<T>): seq<T> {
    if rs == [] then []
    else
      var init := Picks(rs[..|rs| - 1], pick);
      match pick(rs[|rs| - 1])
      case Some(x) => init + [x]
      case None => init
  }

  // The per-kind dicts.

  /** `record.<kind>[x.id] = x` for a resource of the selected kind. */
  function CollectStep<T>(d: Dict<T>, r: Resource, pick: Resource -> Option<T>, key: T -> string): Dict<T> {
    match pick(r)
    case Some(x) => d.Put(key(x), x)
    case None => d
  }

  /** The dict of one kind after the walk. */
  function Collect<T>(rs: seq<Resource>, pick: Resource -> Option<T>, key: T -> string): Dict<T> {
    if rs == [] then Empty()
    else CollectStep(Collect(rs[..|rs| - 1], pick, key), rs[|rs| - 1], pick, key)
  }

  /** `record.patient`: the last Patient entry's, `None` when there is none. */
  function PatientStep(p: Option<Patient>, r: Resource): Option<Patient> {
    if r.PatientResource? then Some(r.patient) else p
  }

  function LastPatient(rs: seq<Resource>): Option<Patient> {
    if rs == [] then None else PatientStep(LastPatient(rs[..|rs| - 1]), rs[|rs| - 1])
  }

  // The date index.

  /** The date-index key of a resource: an encounter's start (even when empty), the
      date field of the other dated kinds when it is non-empty; always its first ten
      characters. */
  function DateKeyOf(r: Resource): Option<string> {
    match r
    case EncounterResource(e) => Some(Prefix(e.startDate, 10))
    case ConditionResource(c) => if c.onsetDate != "" then Some(Prefix(c.onsetDate, 10)) else None
    case MedicationResource(m) => if m.authoredOn != "" then Some(Prefix(m.authoredOn, 10)) else None
    case ObservationResource(o) =>
      if o.effectiveDate != "" then Some(Prefix(o.effectiveDate, 10)) else None
    case ProcedureResource(p) =>
      if p.performedDate != "" then Some(Prefix(p.performedDate, 10)) else None
    case ImmunizationResource(i) =>
      if i.occurrenceDate != "" then Some(Prefix(i.occurrenceDate, 10)) else None
    case ReportResource(d) => if d.effectiveDate != "" then Some(Prefix(d.effectiveDate, 10)) else None
    case _ => None
  }

  /** Appends a non-encounter resource to its kind's list. */
  function AddRecord<E>(b: Bucket<E>, r: Resource): Bucket<E> {
    match r
    case ConditionResource(c) => b.(conditions := b.conditions + [c])
    case MedicationResource(m) => b.(medications := b.medications + [m])
    case ObservationResource(o) => b.(observations := b.observations + [o])
    case ProcedureResource(p) => b.(procedures := b.procedures + [p])
    case ImmunizationResource(i) => b.(immunizations := b.immunizations + [i])
    case ReportResource(d) => b.(diagnosticReports := b.diagnosticReports + [d])
    case _ => b
  }

  function AddToBucket(b: Bucket<EncounterInfo>, r: Resource): Bucket<EncounterInfo> {
    if r.EncounterResource? then b.(encounters := b.encounters + [r.encounter]) else AddRecord(b, r)
  }

  /** `events_by_date[key]['encounters'].append(e)`, creating the bucket if needed. */
  function PlaceEncounter<E>(idx: Dict<Bucket<E>>, key: string, e: E): Dict<Bucket<E>> {
    var b := idx.GetOr(key, EmptyBucket());
    idx.Put(key, b.(encounters := b.encounters + [e]))
  }

  /** The same for a dated non-encounter resource. */
  function PlaceRecord<E>(idx: Dict<Bucket<E>>, r: Resource): Dict<Bucket<E>> {
    match DateKeyOf(r)
    case Some(key) => idx.Put(key, AddRecord(idx.GetOr(key, EmptyBucket()), r))
    case None => idx
  }

  function IndexStep(idx: Dict<Bucket<EncounterInfo>>, r: Resource): Dict<Bucket<EncounterInfo>> {
    if r.EncounterResource? then PlaceEncounter(idx, Prefix(r.encounter.startDate, 10), r.encounter)
    else PlaceRecord(idx, r)
  }

  function EventsIndex(rs: seq<Resource>): Dict<Bucket<EncounterInfo>> {
    if rs == [] then Empty() else IndexStep(EventsIndex(rs[..|rs| - 1]), rs[|rs| - 1])
  }

  /** The resources the index files under `d`, in bundle order. */
  function OnDate(rs: seq<Resource>, d: string): seq<Resource> {
    if rs == [] then []
    else if DateKeyOf(rs[|rs| - 1]) == Some(d) then OnDate(rs[..|rs| - 1], d) + [rs[|rs| - 1]]
    else OnDate(rs[..|rs| - 1], d)
  }

  /** The bucket listing `rs` by kind, in order. */
  function BucketOf(rs: seq<Resource>): Bucket<EncounterInfo> {
    Bucket(Picks(rs, PickEncounter), Picks(rs, PickCondition), Picks(rs, PickMedication),
           Picks(rs, PickObservation), Picks(rs, PickProcedure), Picks(rs, PickImmunization),
           Picks(rs, PickReport))
  }

  // The encounter references.

  /** The encounter id a resource references: the last `/`-segment of a non-empty
      `encounter_ref`. */
  function RefTarget(r: Resource): Option<string> {
    match r
    case ConditionResource(c) => if c.encounterRef != "" then Some(LastSegment(c.encounterRef)) else None
    case MedicationResource(m) => if m.encounterRef != "" then Some(LastSegment(m.encounterRef)) else None
    case ObservationResource(o) =>
      if o.encounterRef != "" then Some(LastSegment(o.encounterRef)) else None
    case ProcedureResource(p) => if p.encounterRef != "" then Some(LastSegment(p.encounterRef)) else None
    case ImmunizationResource(i) =>
      if i.encounterRef != "" then Some(LastSegment(i.encounterRef)) else None
    case ReportResource(d) => if d.encounterRef != "" then Some(LastSegment(d.encounterRef)) else None
    case _ => None
  }

  /** Appends a resource's id to its kind's list. */
  function AddRef(refs: RefLists, r: Resource): RefLists {
    match r
    case ConditionResource(c) => refs.(conditions := refs.conditions + [c.id])
    case MedicationResource(m) => refs.(medications := refs.medications + [m.id])
    case ObservationResource(o) => refs.(observations := refs.observations + [o.id])
    case ProcedureResource(p) => refs.(procedures := refs.procedures + [p.id])
    case ImmunizationResource(i) => refs.(immunizations := refs.immunizations + [i.id])
    case ReportResource(d) => refs.(diagnosticReports := refs.diagnosticReports + [d.id])
    case _ => refs
  }

  /** `encounter_refs[enc_id][kind].append(x.id)` for a resource with a reference. */
  function RefsStep(refs: Dict<RefLists>, r: Resource): Dict<RefLists> {
    match RefTarget(r)
    case Some(e) => refs.Put(e, AddRef(refs.GetOr(e, NoRefs()), r))
    case None => refs
  }

  function RefsIndex(rs: seq<Resource>): Dict<RefLists> {
    if rs == [] then Empty() else RefsStep(RefsIndex(rs[..|rs| - 1]), rs[|rs| - 1])
  }

  /** The resources that reference encounter `e`, in bundle order. */
  function LinkedTo(rs: seq<Resource>, e: string): seq<Resource> {
    if rs == [] then []
    else if RefTarget(rs[|rs| - 1]) == Some(e) then LinkedTo(rs[..|rs| - 1], e) + [rs[|rs| - 1]]
    else LinkedTo(rs[..|rs| - 1], e)
  }

  /** The ids of the selected resources, in order. */
  function Ids<T>(xs: seq<T>, key: T -> string): seq<string> {
    if xs == [] then [] else Ids(xs[..|xs| - 1], key) + [key(xs[|xs| - 1])]
  }

  /** `[key(x) for x in xs]`. */
  lemma {:induction false} IdsSpec<T>(xs: seq<T>, key: T -> string)
    ensures |Ids(xs, key)| == |xs| && forall i :: 0 <= i < |xs| ==> Ids(xs, key)[i] == key(xs[i])
  {
    if xs != [] {
      IdsSpec(xs[..|xs| - 1], key);
    }
  }

  /** The link lists naming `rs` by kind, in order. */
  function RefsOf(rs: seq<Resource>): RefLists {
    RefLists(Ids(Picks(rs, PickCondition), ConditionKey), Ids(Picks(rs, PickMedication), MedicationKey),
             Ids(Picks(rs, PickObservation), ObservationKey), Ids(Picks(rs, PickProcedure), ProcedureKey),
             Ids(Picks(rs, PickImmunization), ImmunizationKey), Ids(Picks(rs, PickReport), ReportKey))
  }

  // What the folds mean.

  /** The option as a list of at most one item. */
  function OptSeq<T>(o: Option<T>): seq<T> {
    if o.Some? then [o.value] else []
  }

  lemma PicksSnoc<T>(rs: seq<Resource>, r: Resource, pick: Resource -> Option<T>)
    ensures Picks(rs + [r], pick) == Picks(rs, pick) + OptSeq(pick(r))
  {
    assert (rs + [r])[..|rs|] == rs;
    assert Picks(rs, pick) + [] == Picks(rs, pick);
  }

  /** What `AddToBucket` does to each list. */
  lemma AddToBucketLists(b: Bucket<EncounterInfo>, r: Resource)
    ensures AddToBucket(b, r).encounters == b.encounters + OptSeq(PickEncounter(r))
    ensures AddToBucket(b, r).conditions == b.conditions + OptSeq(PickCondition(r))
    ensures AddToBucket(b, r).medications == b.medications + OptSeq(PickMedication(r))
    ensures AddToBucket(b, r).observations == b.observations + OptSeq(PickObservation(r))
    ensures AddToBucket(b, r).procedures == b.procedures + OptSeq(PickProcedure(r))
    ensures AddToBucket(b, r).immunizations == b.immunizations + OptSeq(PickImmunization(r))
    ensures AddToBucket(b, r).diagnosticReports == b.diagnosticReports + OptSeq(PickReport(r))
  {
  }

  lemma BucketOfSnoc(rs: seq<Resource>, r: Resource)
    ensures BucketOf(rs + [r]) == AddToBucket(BucketOf(rs), r)
  {
    AddToBucketLists(BucketOf(rs), r);
    PicksSnoc(rs, r, PickEncounter);
    PicksSnoc(rs, r, PickCondition);
    PicksSnoc(rs, r, PickMedication);
    PicksSnoc(rs, r, PickObservation);
    PicksSnoc(rs, r, PickProcedure);
    PicksSnoc(rs, r, PickImmunization);
    PicksSnoc(rs, r, PickReport);
  }

  lemma IdsPicksSnoc<T>(rs: seq<Resource>, r: Resource, pick: Resource -> Option<T>, key: T -> string)
    ensures Ids(Picks(rs + [r], pick), key) == Ids(Picks(rs, pick), key) + Ids(OptSeq(pick(r)), key)
  {
    PicksSnoc(rs, r, pick);
    var xs := Picks(rs, pick);
    if pick(r).Some? {
      assert (xs + [pick(r).value])[..|xs|] == xs;
    } else {
      assert Ids(xs, key) + [] == Ids(xs, key);
    }
  }

  /** What `AddRef` does to each list. */
  lemma AddRefLists(refs: RefLists, r: Resource)
    ensures AddRef(refs, r).conditions == refs.conditions + Ids(OptSeq(PickCondition(r)), ConditionKey)
    ensures AddRef(refs, r).medications == refs.medications + Ids(OptSeq(PickMedication(r)), MedicationKey)
    ensures AddRef(refs, r).observations == refs.observations + Ids(OptSeq(PickObservation(r)), ObservationKey)
    ensures AddRef(refs, r).procedures == refs.procedures + Ids(OptSeq(PickProcedure(r)), ProcedureKey)
    ensures AddRef(refs, r).immunizations == refs.immunizations + Ids(OptSeq(PickImmunization(r)), ImmunizationKey)
    ensures AddRef(refs, r).diagnosticReports == refs.diagnosticReports + Ids(OptSeq(PickReport(r)), ReportKey)
  {
  }

  lemma RefsOfSnoc(rs: seq<Resource>, r: Resource)
    ensures RefsOf(rs + [r]) == AddRef(RefsOf(rs), r)
  {
    AddRefLists(RefsOf(rs), r);
    IdsPicksSnoc(rs, r, PickCondition, ConditionKey);
    IdsPicksSnoc(rs, r, PickMedication, MedicationKey);
    IdsPicksSnoc(rs, r, PickObservation, ObservationKey);
    IdsPicksSnoc(rs, r, PickProcedure, ProcedureKey);
    IdsPicksSnoc(rs, r, PickImmunization, ImmunizationKey);
    IdsPicksSnoc(rs, r, PickReport, ReportKey);
  }

  /** The date index is a well-formed dict with a bucket for exactly the dates some
      resource is filed under; so a resource with an empty date opens no bucket. */
  lemma {:induction false} EventsIndexDates(rs: seq<Resource>, d: string)
    ensures EventsIndex(rs).Valid()
    ensures d in EventsIndex(rs).m <==> exists i :: 0 <= i < |rs| && DateKeyOf(rs[i]) == Some(d)
  {
    if rs != [] {
      var init := rs[..|rs| - 1];
      EventsIndexDates(init, d);
      IndexStepDates(EventsIndex(init), rs[|rs| - 1], d);
      if exists i :: 0 <= i < |rs| && DateKeyOf(rs[i]) == Some(d) {
        var i :| 0 <= i < |rs| && DateKeyOf(rs[i]) == Some(d);
        if i < |init| {
          assert init[i] == rs[i];
        }
      }
      if exists i :: 0 <= i < |init| && DateKeyOf(init[i]) == Some(d) {
        var i :| 0 <= i < |init| && DateKeyOf(init[i]) == Some(d);
        assert rs[i] == init[i];
      }
    }
  }

  lemma IndexStepDates(idx: Dict<Bucket<EncounterInfo>>, r: Resource, d: string)
    ensures idx.Valid() ==> IndexStep(idx, r).Valid()
    ensures d in IndexStep(idx, r).m <==> d in idx.m || DateKeyOf(r) == Some(d)
  {
  }

  /** The bucket for `d` lists, kind by kind and in bundle order, the resources filed
      under `d`; so every encounter is in the bucket of its start date's first ten
      characters, and every other dated resource in the bucket of its date's. */
  lemma {:induction false} EventsIndexBuckets(rs: seq<Resource>, d: string)
    ensures EventsIndex(rs).GetOr(d, EmptyBucket()) == BucketOf(OnDate(rs, d))
  {
    if rs != [] {
      var init, r := rs[..|rs| - 1], rs[|rs| - 1];
      EventsIndexBuckets(init, d);
      if DateKeyOf(r) == Some(d) {
        BucketOfSnoc(OnDate(init, d), r);
      }
    }
  }

  /** The reference lists are a well-formed dict with an entry for exactly the ids some
      resource references. */
  lemma {:induction false} RefsIndexTargets(rs: seq<Resource>, e: string)
    ensures RefsIndex(rs).Valid()
    ensures e in RefsIndex(rs).m <==> exists i :: 0 <= i < |rs| && RefTarget(rs[i]) == Some(e)
  {
    if rs != [] {
      var init, r := rs[..|rs| - 1], rs[|rs| - 1];
      RefsIndexTargets(init, e);
      RefsStepTargets(RefsIndex(init), r, e);
      assert RefsIndex(rs) == RefsStep(RefsIndex(init), r);
      if e in RefsIndex(rs).m {
        if RefTarget(r) == Some(e) {
          assert RefTarget(rs[|rs| - 1]) == Some(e);
        } else {
          var i :| 0 <= i < |init| && RefTarget(init[i]) == Some(e);
          assert rs[i] == init[i];
        }
      } else {
        forall i | 0 <= i < |rs| ensures RefTarget(rs[i]) != Some(e) {
          if i < |init| {
            assert rs[i] == init[i];
          }
        }
      }
    }
  }

  lemma RefsStepTargets(refs: Dict<RefLists>, r: Resource, e: string)
    ensures refs.Valid() ==> RefsStep(refs, r).Valid()
    ensures e in RefsStep(refs, r).m <==> e in refs.m || RefTarget(r) == Some(e)
  {
  }

  /** The reference lists collected for `e` name, kind by kind and in bundle order, the
      resources whose reference ends in `e`. */
  lemma {:induction false} RefsIndexLists(rs: seq<Resource>, e: string)
    ensures RefsIndex(rs).GetOr(e, NoRefs()) == RefsOf(LinkedTo(rs, e))
  {
    if rs != [] {
      var init, r := rs[..|rs| - 1], rs[|rs| - 1];
      RefsIndexLists(init, e);
      if RefTarget(r) == Some(e) {
        RefsOfSnoc(LinkedTo(init, e), r);
      }
    }
  }

  /** A kind's dict is well formed and has a key for exactly the ids of its resources. */
  lemma {:induction false} CollectKeys<T>(rs: seq<Resource>, pick: Resource -> Option<T>, key: T -> string, k: string)
    ensures Collect(rs, pick, key).Valid()
    ensures k in Collect(rs, pick, key).m <==>
              exists i :: 0 <= i < |rs| && pick(rs[i]).Some? && key(pick(rs[i]).value) == k
  {
    if rs != [] {
      var init := rs[..|rs| - 1];
      CollectKeys(init, pick, key, k);
      CollectStepKeys(Collect(init, pick, key), rs[|rs| - 1], pick, key, k);
      if exists i :: 0 <= i < |rs| && pick(rs[i]).Some? && key(pick(rs[i]).value) == k {
        var i :| 0 <= i < |rs| && pick(rs[i]).Some? && key(pick(rs[i]).value) == k;
        if i < |init| {
          assert init[i] == rs[i];
        }
      }
      if exists i :: 0 <= i < |init| && pick(init[i]).Some? && key(pick(init[i]).value) == k {
        var i :| 0 <= i < |init| && pick(init[i]).Some? && key(pick(init[i]).value) == k;
        assert rs[i] == init[i];
      }
    }
  }

  lemma CollectStepKeys<T>(d: Dict<T>, r: Resource, pick: Resource -> Option<T>, key: T -> string, k: string)
    ensures d.Valid() ==> CollectStep(d, r, pick, key).Valid()
    ensures k in CollectStep(d, r, pick, key).m <==> k in d.m || (pick(r).Some? && key(pick(r).value) == k)
  {
  }

  /** A kind's dict holds under each id the last resource with that id: a later entry
      overwrites an earlier one. */
  lemma {:induction false} CollectLast<T>(rs: seq<Resource>, pick: Resource -> Option<T>, key: T -> string, k: string)
    requires k in Collect(rs, pick, key).m
    ensures exists i :: 0 <= i < |rs| && pick(rs[i]) == Some(Collect(rs, pick, key).m[k])
                        && key(pick(rs[i]).value) == k
                        && forall j :: i < j < |rs| && pick(rs[j]).Some? ==> key(pick(rs[j]).value) != k
  {
    var init, r := rs[..|rs| - 1], rs[|rs| - 1];
    var d := Collect(init, pick, key);
    if pick(r).Some? && key(pick(r).value) == k {
      assert pick(rs[|rs| - 1]) == Some(Collect(rs, pick, key).m[k]);
    } else {
      assert Collect(rs, pick, key).m[k] == d.m[k];
      CollectLast(init, pick, key, k);
      var i :| 0 <= i < |init| && pick(init[i]) == Some(d.m[k]) && key(pick(init[i]).value) == k
               && forall j :: i < j < |init| && pick(init[j]).Some? ==> key(pick(init[j]).value) != k;
      assert rs[i] == init[i];
      forall j | i < j < |rs| && pick(rs[j]).Some? ensures key(pick(rs[j]).value) != k {
        if j < |init| {
          assert rs[j] == init[j];
        }
      }
    }
  }

  /** `record.patient` is `None` exactly when the bundle has no Patient entry. */
  lemma {:induction false} NoPatient(rs: seq<Resource>)
    ensures LastPatient(rs).None? <==> forall i :: 0 <= i < |rs| ==> !rs[i].PatientResource?
  {
    if rs != [] {
      var init := rs[..|rs| - 1];
      NoPatient(init);
      if !rs[|rs| - 1].PatientResource? {
        assert forall i :: 0 <= i < |init| ==> init[i] == rs[i];
      }
    }
  }

  /** Otherwise it is the last Patient entry's. */
  lemma {:induction false} LastPatientWins(rs: seq<Resource>)
    requires LastPatient(rs).Some?
    ensures exists i :: 0 <= i < |rs| && rs[i] == PatientResource(LastPatient(rs).value)
                        && forall j :: i < j < |rs| ==> !rs[j].PatientResource?
  {
    var init, last := rs[..|rs| - 1], |rs| - 1;
    if rs[last].PatientResource? {
      assert rs[last] == PatientResource(LastPatient(rs).value);
    } else {
      LastPatientWins(init);
      var i :| 0 <= i < |init| && init[i] == PatientResource(LastPatient(init).value)
               && forall j :: i < j < |init| ==> !init[j].PatientResource?;
      assert LastPatient(rs) == LastPatient(init);
      assert rs[i] == PatientResource(LastPatient(rs).value);
      forall j | i < j < |rs| ensures !rs[j].PatientResource? {
        if j < last {
          assert rs[j] == init[j];
        }
      }
    }
  }

  // The walk.

  /** The encounter object `e` is listed in the index under its start date's first ten
      characters. */
  predicate FiledUnder(idx: Dict<Bucket<Encounter>>, e: Encounter) {
    var key := Prefix(e.info.startDate, 10);
    key in idx.m && e in idx.m[key].encounters
  }

  /** The record's encounter objects are all in `objs`; each dict entry is stored under
      its own id and is listed under its start date. */
  predicate Tracked(encs: Dict<Encounter>, idx: Dict<Bucket<Encounter>>, objs: set<Encounter>) {
    && (forall k :: k in encs.m ==> encs.m[k] in objs && encs.m[k].info.id == k)
    && (forall d, i :: d in idx.m && 0 <= i < |idx.m[d].encounters| ==> idx.m[d].encounters[i] in objs)
    && (forall k :: k in encs.m ==> FiledUnder(idx, encs.m[k]))
  }

  /** None of `objs` has been linked yet. */
  predicate Unlinked(objs: set<Encounter>)
    reads objs
  {
    forall o :: o in objs ==> o.Links() == NoRefs()
  }

  /** Everything the first pass maintains, with encounter objects replaced by their
      fields: the record's patient, dicts and date index, and `encounter_refs`. */
  datatype Snapshot = Snapshot(
    patient: Option<Patient>,
    conditions: Dict<Condition>,
    medications: Dict<Medication>,
    observations: Dict<Observation>,
    procedures: Dict<Procedure>,
    immunizations: Dict<Immunization>,
    diagnosticReports: Dict<DiagnosticReport>,
    encounters: Dict<EncounterInfo>,
    eventsByDate: Dict<Bucket<EncounterInfo>>,
    refs: Dict<RefLists>)

  function Snap(rec: PatientRecord, refs: Dict<RefLists>): Snapshot
    reads rec
  {
    Snapshot(rec.patient, rec.conditions, rec.medications, rec.observations, rec.procedures,
             rec.immunizations, rec.diagnosticReports, InfoDict(rec.encounters),
             IndexView(rec.eventsByDate), refs)
  }

  /** One branch of the first pass's dispatch. */
  function Apply(s: Snapshot, r: Resource): Snapshot {
    match r
    case PatientResource(p) => s.(patient := Some(p))
    case EncounterResource(e) =>
      s.(encounters := s.encounters.Put(e.id, e),
         eventsByDate := PlaceEncounter(s.eventsByDate, Prefix(e.startDate, 10), e))
    case ConditionResource(c) =>
      s.(conditions := s.conditions.Put(c.id, c), refs := RefsStep(s.refs, r),
         eventsByDate := PlaceRecord(s.eventsByDate, r))
    case MedicationResource(m) =>
      s.(medications := s.medications.Put(m.id, m), refs := RefsStep(s.refs, r),
         eventsByDate := PlaceRecord(s.eventsByDate, r))
    case ObservationResource(o) =>
      s.(observations := s.observations.Put(o.id, o), refs := RefsStep(s.refs, r),
         eventsByDate := PlaceRecord(s.eventsByDate, r))
    case ProcedureResource(p) =>
      s.(procedures := s.procedures.Put(p.id, p), refs := RefsStep(s.refs, r),
         eventsByDate := PlaceRecord(s.eventsByDate, r))
    case ImmunizationResource(i) =>
      s.(immunizations := s.immunizations.Put(i.id, i), refs := RefsStep(s.refs, r),
         eventsByDate := PlaceRecord(s.eventsByDate, r))
    case ReportResource(d) =>
      s.(diagnosticReports := s.diagnosticReports.Put(d.id, d), refs := RefsStep(s.refs, r),
         eventsByDate := PlaceRecord(s.eventsByDate, r))
    case Unrecognised => s
  }

  function InitialSnapshot(): Snapshot {
    Snapshot(None, Empty(), Empty(), Empty(), Empty(), Empty(), Empty(), Empty(), Empty(), Empty())
  }

  /** The state after the first pass over `rs`. */
  function FirstPass(rs: seq<Resource>): Snapshot {
    if rs == [] then InitialSnapshot() else Apply(FirstPass(rs[..|rs| - 1]), rs[|rs| - 1])
  }

  /** An unrecognised entry leaves the first pass where it was. */
  lemma UnrecognisedIgnored(rs: seq<Resource>)
    ensures FirstPass(rs + [Unrecognised]) == FirstPass(rs)
  {
    assert (rs + [Unrecognised])[..|rs|] == rs;
  }

  /** The record's dicts and date index, with encounter objects read through their
      fields, are the folds over `rs`. */
  predicate Filled(rec: PatientRecord, rs: seq<Resource>)
    reads rec
  {
    && rec.Valid()
    && rec.patient == LastPatient(rs)
    && rec.conditions == Collect(rs, PickCondition, ConditionKey)
    && rec.medications == Collect(rs, PickMedication, MedicationKey)
    && rec.observations == Collect(rs, PickObservation, ObservationKey)
    && rec.procedures == Collect(rs, PickProcedure, ProcedureKey)
    && rec.immunizations == Collect(rs, PickImmunization, ImmunizationKey)
    && rec.diagnosticReports == Collect(rs, PickReport, ReportKey)
    && InfoDict(rec.encounters) == Collect(rs, PickEncounter, EncounterKey)
    && IndexView(rec.eventsByDate) == EventsIndex(rs)
  }

  /** The finished record for the resources `rs`: it is `Filled`, and each stored
      encounter carries the reference lists collected for its id. */
  predicate Describes(rec: PatientRecord, rs: seq<Resource>)
    reads rec, rec.encounters.m.Values, IndexObjects(rec.eventsByDate)
  {
    && Filled(rec, rs)
    && (forall k :: k in rec.encounters.m ==> rec.encounters.m[k].Links() == RefsIndex(rs).GetOr(k, NoRefs()))
    && IndexShares(rec)
  }

  /** The date index shares the dict's encounter objects: each stored encounter is
      listed under its start date, and each indexed encounter is the one stored under
      its id or one that the second pass never links. */
  predicate IndexShares(rec: PatientRecord)
    reads rec, IndexObjects(rec.eventsByDate)
  {
    && (forall k :: k in rec.encounters.m ==> FiledUnder(rec.eventsByDate, rec.encounters.m[k]))
    && (forall k, i :: k in rec.eventsByDate.m && 0 <= i < |rec.eventsByDate.m[k].encounters| ==>
          var o := rec.eventsByDate.m[k].encounters[i];
          (o.info.id in rec.encounters.m && rec.encounters.m[o.info.id] == o) || o.Links() == NoRefs())
  }

  lemma InfoDictPut(d: Dict<Encounter>, k: string, e: Encounter)
    ensures InfoDict(d.Put(k, e)) == InfoDict(d).Put(k, e.info)
  {
  }

  lemma IndexViewPut(idx: Dict<Bucket<Encounter>>, k: string, b: Bucket<Encounter>)
    ensures IndexView(idx.Put(k, b)) == IndexView(idx).Put(k, BucketView(b))
  {
  }

  lemma IndexViewPlaceEncounter(idx: Dict<Bucket<Encounter>>, key: string, e: Encounter)
    ensures IndexView(PlaceEncounter(idx, key, e)) == PlaceEncounter(IndexView(idx), key, e.info)
  {
    var b := idx.GetOr(key, EmptyBucket());
    IndexViewPut(idx, key, b.(encounters := b.encounters + [e]));
    assert IndexView(idx).GetOr(key, EmptyBucket()) == BucketView(b);
    assert InfoSeq(b.encounters + [e]) == InfoSeq(b.encounters) + [e.info];
  }

  lemma IndexViewPlaceRecord(idx: Dict<Bucket<Encounter>>, r: Resource)
    requires !r.EncounterResource?
    ensures IndexView(PlaceRecord(idx, r)) == PlaceRecord(IndexView(idx), r)
  {
    if DateKeyOf(r).Some? {
      var key := DateKeyOf(r).value;
      var b := idx.GetOr(key, EmptyBucket());
      IndexViewPut(idx, key, AddRecord(b, r));
      assert IndexView(idx).GetOr(key, EmptyBucket()) == BucketView(b);
    }
  }

  lemma TrackedPlaceRecord(encs: Dict<Encounter>, idx: Dict<Bucket<Encounter>>, r: Resource, objs: set<Encounter>)
    requires Tracked(encs, idx, objs) && !r.EncounterResource?
    ensures Tracked(encs, PlaceRecord(idx, r), objs)
  {
    var idx' := PlaceRecord(idx, r);
    forall d | d in idx'.m ensures idx'.m[d].encounters == idx.GetOr(d, EmptyBucket()).encounters {
    }
    forall k | k in encs.m ensures FiledUnder(idx', encs.m[k]) {
      assert FiledUnder(idx, encs.m[k]);
    }
  }

  lemma TrackedPlaceEncounter(encs: Dict<Encounter>, idx: Dict<Bucket<Encounter>>, key: string, e: Encounter,
                              objs: set<Encounter>)
    requires Tracked(encs, idx, objs) && key == Prefix(e.info.startDate, 10)
    ensures Tracked(encs.Put(e.info.id, e), PlaceEncounter(idx, key, e), objs + {e})
  {
    var idx' := PlaceEncounter(idx, key, e);
    var encs' := encs.Put(e.info.id, e);
    forall k | k in encs'.m ensures FiledUnder(idx', encs'.m[k]) {
      if k != e.info.id {
        var o := encs.m[k];
        assert FiledUnder(idx, o);
        var ko := Prefix(o.info.startDate, 10);
        if ko == key {
          assert idx'.m[key].encounters == idx.m[key].encounters + [e];
        } else {
          assert idx'.m[ko] == idx.m[ko];
        }
      } else {
        assert idx'.m[key].encounters == idx.GetOr(key, EmptyBucket()).encounters + [e];
      }
    }
    forall d, i | d in idx'.m && 0 <= i < |idx'.m[d].encounters| ensures idx'.m[d].encounters[i] in objs + {e} {
      if d != key {
        assert idx'.m[d] == idx.m[d];
      } else if i < |idx.GetOr(key, EmptyBucket()).encounters| {
        assert idx'.m[d].encounters[i] == idx.m[d].encounters[i];
      }
    }
  }

  /** What the first loop keeps: a record whose encounter objects, all in `objs` and
      none linked yet, read together with `refs` as the snapshot `s`. */
  ghost predicate FirstPassState(rec: PatientRecord, refs: Dict<RefLists>, objs: set<Encounter>, s: Snapshot)
    reads rec, objs
  {
    && Tracked(rec.encounters, rec.eventsByDate, objs) && Unlinked(objs)
    && Snap(rec, refs) == s
  }

  /** One entry of the first pass: store the resource under its id, note its encounter
      reference, and file it under its date. */
  method AddResource(rec: PatientRecord, refs: Dict<RefLists>, r: Resource, ghost objs: set<Encounter>,
                     ghost s: Snapshot)
    returns (refs': Dict<RefLists>, ghost objs': set<Encounter>)
    requires FirstPassState(rec, refs, objs, s)
    modifies rec
    ensures FirstPassState(rec, refs', objs', Apply(s, r))
    ensures objs <= objs' && fresh(objs' - objs)
  {
    refs', objs' := refs, objs;
    match r {
      case PatientResource(p) =>
        rec.patient := Some(p);
      case EncounterResource(info) =>
        objs' := AddEncounter(rec, info, refs, objs, s);
      case Unrecognised =>
      case _ =>
        refs' := AddClinicalResource(rec, refs, r, objs, s);
    }
  }

  /** The first pass for the six kinds that carry an encounter reference and a date. */
  method AddClinicalResource(rec: PatientRecord, refs: Dict<RefLists>, r: Resource, ghost objs: set<Encounter>,
                             ghost s: Snapshot)
    returns (refs': Dict<RefLists>)
    requires FirstPassState(rec, refs, objs, s)
    requires !r.PatientResource? && !r.EncounterResource? && !r.Unrecognised?
    modifies rec
    ensures FirstPassState(rec, refs', objs, Apply(s, r))
  {
    refs' := RefsStep(refs, r);
    var idx := PlaceRecord(rec.eventsByDate, r);
    RecordStepFacts(rec.encounters, rec.eventsByDate, r, objs);
    ghost var filed := s.(refs := refs', eventsByDate := IndexView(idx));
    match r {
      case ConditionResource(c) =>
        rec.conditions := rec.conditions.Put(c.id, c);
        assert Snap(rec, refs').(eventsByDate := filed.eventsByDate) == filed.(conditions := rec.conditions);
      case MedicationResource(m) =>
        rec.medications := rec.medications.Put(m.id, m);
        assert Snap(rec, refs').(eventsByDate := filed.eventsByDate) == filed.(medications := rec.medications);
      case ObservationResource(o) =>
        rec.observations := rec.observations.Put(o.id, o);
        assert Snap(rec, refs').(eventsByDate := filed.eventsByDate) == filed.(observations := rec.observations);
      case ProcedureResource(p) =>
        rec.procedures := rec.procedures.Put(p.id, p);
        assert Snap(rec, refs').(eventsByDate := filed.eventsByDate) == filed.(procedures := rec.procedures);
      case ImmunizationResource(im) =>
        rec.immunizations := rec.immunizations.Put(im.id, im);
        assert Snap(rec, refs').(eventsByDate := filed.eventsByDate) == filed.(immunizations := rec.immunizations);
      case ReportResource(d) =>
        rec.diagnosticReports := rec.diagnosticReports.Put(d.id, d);
        assert Snap(rec, refs').(eventsByDate := filed.eventsByDate) == filed.(diagnosticReports := rec.diagnosticReports);
    }
    rec.eventsByDate := idx;
  }

  /** What filing a dated non-encounter resource does to the index, read through the
      objects' fields. */
  lemma RecordStepFacts(encs: Dict<Encounter>, idx: Dict<Bucket<Encounter>>, r: Resource, objs: set<Encounter>)
    requires Tracked(encs, idx, objs) && !r.EncounterResource?
    ensures Tracked(encs, PlaceRecord(idx, r), objs)
    ensures IndexView(PlaceRecord(idx, r)) == PlaceRecord(IndexView(idx), r)
  {
    IndexViewPlaceRecord(idx, r);
    TrackedPlaceRecord(encs, idx, r, objs);
  }

  /** What filing a new encounter object does to the dict and the index, read through
      the objects' fields. */
  lemma EncounterStepFacts(encs: Dict<Encounter>, idx: Dict<Bucket<Encounter>>, e: Encounter, key: string,
                           objs: set<Encounter>)
    requires Tracked(encs, idx, objs) && key == Prefix(e.info.startDate, 10)
    ensures Tracked(encs.Put(e.info.id, e), PlaceEncounter(idx, key, e), objs + {e})
    ensures InfoDict(encs.Put(e.info.id, e)) == InfoDict(encs).Put(e.info.id, e.info)
    ensures IndexView(PlaceEncounter(idx, key, e)) == PlaceEncounter(IndexView(idx), key, e.info)
  {
    InfoDictPut(encs, e.info.id, e);
    IndexViewPlaceEncounter(idx, key, e);
    TrackedPlaceEncounter(encs, idx, key, e, objs);
  }

  lemma UnlinkedAdd(objs: set<Encounter>, e: Encounter)
    requires Unlinked(objs) && e.Links() == NoRefs()
    ensures Unlinked(objs + {e})
  {
  }

  /** The first pass for an encounter: a fresh object, stored under its id and filed
      under its start date even when that is empty. */
  method AddEncounter(rec: PatientRecord, info: EncounterInfo, ghost refs: Dict<RefLists>, ghost objs: set<Encounter>,
                      ghost s: Snapshot)
    returns (ghost objs': set<Encounter>)
    requires FirstPassState(rec, refs, objs, s)
    modifies rec
    ensures FirstPassState(rec, refs, objs', Apply(s, EncounterResource(info)))
    ensures objs <= objs' && fresh(objs' - objs)
  {
    var e := new Encounter(info);
    objs' := objs + {e};
    UnlinkedAdd(objs, e);
    var key := Prefix(info.startDate, 10);
    var encs := rec.encounters.Put(info.id, e);
    var idx := PlaceEncounter(rec.eventsByDate, key, e);
    EncounterStepFacts(rec.encounters, rec.eventsByDate, e, key, objs);
    ghost var after := s.(encounters := InfoDict(encs), eventsByDate := IndexView(idx));
    assert after == Apply(s, EncounterResource(info));
    rec.encounters, rec.eventsByDate := encs, idx;
    assert Snap(rec, refs) == after;
  }

  /** The whole first pass as a fold of `Apply` is the separate folds side by side. */
  lemma {:induction false} FirstPassParts(rs: seq<Resource>)
    ensures FirstPass(rs) == Snapshot(
              LastPatient(rs), Collect(rs, PickCondition, ConditionKey),
              Collect(rs, PickMedication, MedicationKey), Collect(rs, PickObservation, ObservationKey),
              Collect(rs, PickProcedure, ProcedureKey), Collect(rs, PickImmunization, ImmunizationKey),
              Collect(rs, PickReport, ReportKey), Collect(rs, PickEncounter, EncounterKey),
              EventsIndex(rs), RefsIndex(rs))
  {
    if rs != [] {
      FirstPassParts(rs[..|rs| - 1]);
    }
  }

  /** A failing entry after a run of good ones decides the walk's fault. */
  lemma {:induction false} ClassifyAllPrefixFailure(entries: seq<Json>, i: nat, decode: string -> Option<string>)
    requires i < |entries| && ClassifyAll(entries[..i], decode).Success?
    requires Classify(entries[i], decode).Failure?
    ensures ClassifyAll(entries, decode) == Failure(Classify(entries[i], decode).error)
    decreases |entries|
  {
    var init := entries[..|entries| - 1];
    if i < |entries| - 1 {
      assert init[..i] == entries[..i];
      ClassifyAllPrefixFailure(init, i, decode);
    } else {
      assert init == entries[..i];
    }
  }

  lemma ClassifyAllSnoc(entries: seq<Json>, i: nat, decode: string -> Option<string>)
    requires i < |entries| && ClassifyAll(entries[..i], decode).Success?
    requires Classify(entries[i], decode).Success?
    ensures ClassifyAll(entries[..i + 1], decode)
            == Success(ClassifyAll(entries[..i], decode).value + [Classify(entries[i], decode).value])
  {
    assert entries[..i + 1][..i] == entries[..i];
  }

  lemma FirstPassSnoc(rs: seq<Resource>, r: Resource)
    ensures FirstPass(rs + [r]) == Apply(FirstPass(rs), r)
  {
    assert (rs + [r])[..|rs|] == rs;
  }

  /** The dispatch of one entry, with the two looping extractors run as methods. */
  method ClassifyEntry(entry: Json, decode: string -> Option<string>) returns (r: Outcome<Resource>)
    ensures r == Classify(entry, decode)
  {
    var resource :- Get(entry, "resource", JObj([]));
    var kind :- Get(resource, "resourceType", JNull);
    if kind == JStr("Patient") {
      var p :- ExtractPatient(resource);
      r := Success(PatientResource(p));
    } else if kind == JStr("DiagnosticReport") {
      var d :- ExtractDiagnosticReport(resource, decode);
      r := Success(ReportResource(d));
    } else {
      r := Classify(entry, decode);
    }
  }

  /** The first loop's state after a good prefix of `i` entries read as `rs`. */
  ghost predicate WalkState(rec: PatientRecord, refs: Dict<RefLists>, objs: set<Encounter>, entries: seq<Json>,
                            i: nat, decode: string -> Option<string>, rs: seq<Resource>)
    reads rec, objs
  {
    && i <= |entries| && ClassifyAll(entries[..i], decode) == Success(rs)
    && FirstPassState(rec, refs, objs, FirstPass(rs))
  }

  method WalkEntry(rec: PatientRecord, refs: Dict<RefLists>, entries: seq<Json>, i: nat,
                   decode: string -> Option<string>, ghost objs: set<Encounter>, ghost rs: seq<Resource>)
    returns (res: Outcome<Resource>, refs': Dict<RefLists>, ghost objs': set<Encounter>)
    requires i < |entries| && WalkState(rec, refs, objs, entries, i, decode, rs)
    modifies rec
    ensures res.Failure? ==> ClassifyAll(entries, decode) == Failure(res.error)
    ensures res.Success? ==> WalkState(rec, refs', objs', entries, i + 1, decode, rs + [res.value])
    ensures objs <= objs' && fresh(objs' - objs)
  {
    res := ClassifyEntry(entries[i], decode);
    refs', objs' := refs, objs;
    if res.Failure? {
      ClassifyAllPrefixFailure(entries, i, decode);
    } else {
      ClassifyAllSnoc(entries, i, decode);
      FirstPassSnoc(rs, res.value);
      refs', objs' := AddResource(rec, refs, res.value, objs, FirstPass(rs));
    }
  }

  lemma WalkDone(rec: PatientRecord, refs: Dict<RefLists>, objs: set<Encounter>, entries: seq<Json>,
                 decode: string -> Option<string>, rs: seq<Resource>)
    requires WalkState(rec, refs, objs, entries, |entries|, decode, rs)
    ensures ClassifyAll(entries, decode) == Success(rs)
    ensures FirstPassState(rec, refs, objs, FirstPass(ClassifyAll(entries, decode).value))
  {
    assert entries[..|entries|] == entries;
  }

  lemma WalkStart(rec: PatientRecord, refs: Dict<RefLists>, objs: set<Encounter>, entries: seq<Json>,
                 decode: string -> Option<string>)
    requires FirstPassState(rec, refs, objs, FirstPass([]))
    ensures WalkState(rec, refs, objs, entries, 0, decode, [])
  {
    assert entries[..0] == [];
  }

  method RunFirstPass(entries: seq<Json>, decode: string -> Option<string>)
    returns (r: Outcome<PatientRecord>, refs: Dict<RefLists>, ghost objs: set<Encounter>)
    ensures r.Failure? <==> ClassifyAll(entries, decode).Failure?
    ensures r.Failure? ==> r.error == ClassifyAll(entries, decode).error
    ensures r.Success? ==>
              && fresh(r.value) && fresh(objs)
              && FirstPassState(r.value, refs, objs, FirstPass(ClassifyAll(entries, decode).value))
  {
    var rec;
    rec, refs, objs := NewRecord();
    ghost var rs: seq<Resource> := [];
    WalkStart(rec, refs, objs, entries, decode);
    var i := 0;
    while i < |entries|
      invariant fresh(rec) && fresh(objs) && WalkState(rec, refs, objs, entries, i, decode, rs)
    {
      var res;
      res, refs, objs := WalkEntry(rec, refs, entries, i, decode, objs, rs);
      if res.Failure? {
        return Failure(res.error), refs, objs;
      }
      rs := rs + [res.value];
      i := i + 1;
    }
    WalkDone(rec, refs, objs, entries, decode, rs);
    r := Success(rec);
  }

  /** `PatientRecord(patient=None)` and an empty `encounter_refs`: the state before
      any entry. */
  method NewRecord() returns (rec: PatientRecord, refs: Dict<RefLists>, ghost objs: set<Encounter>)
    ensures fresh(rec) && objs == {} && FirstPassState(rec, refs, objs, FirstPass([]))
  {
    rec := new PatientRecord();
    refs, objs := Empty(), {};
    assert InfoDict(rec.encounters) == Empty();
    assert IndexView(rec.eventsByDate) == Empty();
  }

  /** The second loop: each encounter stored under an id with collected references is
      assigned those lists; every other object is left alone. */
  method LinkEncounters(rec: PatientRecord, refs: Dict<RefLists>)
    requires rec.encounters.Valid() && refs.Valid()
    requires forall k :: k in rec.encounters.m ==> rec.encounters.m[k].info.id == k
    modifies rec.encounters.m.Values
    ensures forall k :: k in rec.encounters.m ==>
              rec.encounters.m[k].Links() == if k in refs.m then refs.m[k] else old(rec.encounters.m[k].Links())
  {
    var encs := rec.encounters;
    var j := 0;
    while j < |refs.keys|
      invariant 0 <= j <= |refs.keys|
      invariant forall k :: k in encs.m ==>
                  encs.m[k].Links() == if k in refs.keys[..j] then refs.m[k] else old(encs.m[k].Links())
    {
      var k := refs.keys[j];
      assert refs.keys[..j + 1] == refs.keys[..j] + [k];
      match encs.Get(k) {
        case Some(e) =>
          e.Link(refs.m[k]);
          forall k' | k' in encs.m
            ensures encs.m[k'].Links() == if k' in refs.keys[..j + 1] then refs.m[k'] else old(encs.m[k'].Links())
          {
            if k' != k {
              assert encs.m[k'].info.id != e.info.id;
            }
          }
        case None =>
      }
      j := j + 1;
    }
    assert refs.keys[..j] == refs.keys;
  }

  /** A dict's key structure is that of its view through the objects' fields. */
  lemma InfoDictValid(d: Dict<Encounter>)
    requires InfoDict(d).Valid()
    ensures d.Valid()
  {
  }

  lemma IndexViewValid(d: Dict<Bucket<Encounter>>)
    requires IndexView(d).Valid()
    ensures d.Valid()
  {
  }

  /** After the first pass over `rs` the record holds the folds over `rs`, every dict is
      well formed, and `encounter_refs` is the fold `RefsIndex`. */
  lemma FirstPassDescribes(rec: PatientRecord, refs: Dict<RefLists>, objs: set<Encounter>, rs: seq<Resource>)
    requires FirstPassState(rec, refs, objs, FirstPass(rs))
    ensures Filled(rec, rs) && refs.Valid() && refs == RefsIndex(rs)
  {
    FirstPassParts(rs);
    CollectKeys(rs, PickCondition, ConditionKey, "");
    CollectKeys(rs, PickMedication, MedicationKey, "");
    CollectKeys(rs, PickObservation, ObservationKey, "");
    CollectKeys(rs, PickProcedure, ProcedureKey, "");
    CollectKeys(rs, PickImmunization, ImmunizationKey, "");
    CollectKeys(rs, PickReport, ReportKey, "");
    CollectKeys(rs, PickEncounter, EncounterKey, "");
    EventsIndexDates(rs, "");
    RefsIndexTargets(rs, "");
    InfoDictValid(rec.encounters);
    IndexViewValid(rec.eventsByDate);
  }
}
