/**
 * `extract_patient_record` end to end: the entry list, the first pass and the second.
 */
module ExtractRecord {
  import opened Wrappers
  import opened Text
  import opened OrderedDict
  import opened JsonValue
  import opened FhirModel
  import opened PatientRecords
  import opened BundleWalk

  /** `extract_patient_record` on the parsed bundle: the fault the walk stops with, or a
      new record that `Describes` the bundle's resources, every stored encounter
      linked to the resources that reference it. */
  method ExtractPatientRecord(bundle: Json, decode: string -> Option<string>) returns (r: Outcome<PatientRecord>)
    ensures r.Failure? <==> Resources(bundle, decode).Failure?
    ensures r.Failure? ==> r.error == Resources(bundle, decode).error
    ensures r.Success? ==> fresh(r.value) && Describes(r.value, Resources(bundle, decode).value)
  {
    var entries :- Entries(bundle);
    var refs;
    ghost var objs;
    r, refs, objs := RunFirstPass(entries, decode);
    if r.Failure? {
      return;
    }
    ghost var rs := ClassifyAll(entries, decode).value;
    FirstPassDescribes(r.value, refs, objs, rs);
    SecondPass(r.value, refs, objs);
  }

  /** The second loop on records none of whose encounter objects is linked yet:
      every stored encounter ends with the lists collected for its id, or with none,
      and every other object the date index holds stays unlinked. */
  method SecondPass(rec: PatientRecord, refs: Dict<RefLists>, ghost objs: set<Encounter>)
    requires rec.encounters.Valid() && refs.Valid()
    requires Tracked(rec.encounters, rec.eventsByDate, objs) && Unlinked(objs)
    modifies objs
    ensures forall k :: k in rec.encounters.m ==> rec.encounters.m[k].Links() == refs.GetOr(k, NoRefs())
    ensures IndexShares(rec)
  {
    LinkEncounters(rec, refs);
    forall k | k in rec.encounters.m ensures rec.encounters.m[k].Links() == refs.GetOr(k, NoRefs()) {
      assert old(rec.encounters.m[k].Links()) == NoRefs();
    }
    forall k | k in rec.encounters.m ensures FiledUnder(rec.eventsByDate, rec.encounters.m[k]) {
    }
    forall k, i | k in rec.eventsByDate.m && 0 <= i < |rec.eventsByDate.m[k].encounters|
      ensures var o := rec.eventsByDate.m[k].encounters[i];
              (o.info.id in rec.encounters.m && rec.encounters.m[o.info.id] == o) || o.Links() == NoRefs()
    {
      var o := rec.eventsByDate.m[k].encounters[i];
      if o in rec.encounters.m.Values {
        var id :| id in rec.encounters.m && rec.encounters.m[id] == o;
        assert o.info.id == id;
      } else {
        assert old(o.Links()) == NoRefs();
      }
    }
  }

  // What the finished record answers.

  /** A stored encounter is the last Encounter entry with its id. */
  lemma EncounterOfDescribed(rec: PatientRecord, rs: seq<Resource>, k: string)
    requires Describes(rec, rs) && k in rec.encounters.m
    ensures exists i :: 0 <= i < |rs| && rs[i] == EncounterResource(rec.encounters.m[k].info)
                        && rec.encounters.m[k].info.id == k
                        && forall j :: i < j < |rs| && rs[j].EncounterResource? ==> rs[j].encounter.id != k
  {
    var d := Collect(rs, PickEncounter, EncounterKey);
    assert InfoDict(rec.encounters).m[k] == d.m[k];
    CollectLast(rs, PickEncounter, EncounterKey, k);
  }

  /** A stored encounter lists, kind by kind and in bundle order, the ids of the
      resources whose reference ends in its id. */
  lemma LinksOfDescribed(rec: PatientRecord, rs: seq<Resource>, k: string)
    requires Describes(rec, rs) && k in rec.encounters.m
    ensures rec.encounters.m[k].Links() == RefsOf(LinkedTo(rs, k))
  {
    RefsIndexLists(rs, k);
  }

  /** `get_events_for_date(d)` lists, kind by kind and in bundle order, the resources
      filed under `d[:10]`, and nothing when there are none; every stored encounter
      whose start date has that prefix is listed as the very object the dict holds,
      and each listed encounter is the stored object of its id, linked, or one that no
      pass has linked. */
  lemma EventsOfDescribed(rec: PatientRecord, rs: seq<Resource>, d: string)
    requires Describes(rec, rs)
    ensures BucketView(rec.EventsForDate(d)) == BucketOf(OnDate(rs, Prefix(d, 10)))
    ensures forall i :: 0 <= i < |rec.EventsForDate(d).encounters| ==>
              var e := rec.EventsForDate(d).encounters[i];
              || (e.info.id in rec.encounters.m && rec.encounters.m[e.info.id] == e
                  && e.Links() == RefsIndex(rs).GetOr(e.info.id, NoRefs()))
              || e.Links() == NoRefs()
    ensures forall k :: k in rec.encounters.m && Prefix(rec.encounters.m[k].info.startDate, 10) == Prefix(d, 10) ==>
              rec.encounters.m[k] in rec.EventsForDate(d).encounters
  {
    var key := Prefix(d, 10);
    EventsIndexBuckets(rs, key);
    if key in rec.eventsByDate.m {
      assert IndexView(rec.eventsByDate).m[key] == BucketView(rec.eventsByDate.m[key]);
    } else {
      assert key !in EventsIndex(rs).m;
      assert BucketView(EmptyBucket()) == EmptyBucket();
    }
  }

  /** A stored encounter is listed, as the very object the dict holds, among the
      events of its own start date. */
  lemma StoredOnItsDate(rec: PatientRecord, rs: seq<Resource>, k: string)
    requires Describes(rec, rs) && k in rec.encounters.m
    ensures var e := rec.encounters.m[k]; e in rec.EventsForDate(e.info.startDate).encounters
  {
    EventsOfDescribed(rec, rs, rec.encounters.m[k].info.startDate);
  }

  /** `get_encounter_context` on a stored encounter: the resources filed under its
      start date, kind by kind and in bundle order, and the bundle's last patient. */
  lemma ContextOfDescribed(rec: PatientRecord, rs: seq<Resource>, id: string)
    requires Describes(rec, rs) && id in rec.encounters.m
    ensures var c := rec.EncounterContext(id);
            var on := OnDate(rs, Prefix(rec.encounters.m[id].info.startDate, 10));
            && c.Some? && c.value.encounter == rec.encounters.m[id]
            && c.value.conditions == Picks(on, PickCondition)
            && c.value.medications == Picks(on, PickMedication)
            && c.value.observations == Picks(on, PickObservation)
            && c.value.procedures == Picks(on, PickProcedure)
            && c.value.immunizations == Picks(on, PickImmunization)
            && c.value.diagnosticReports == Picks(on, PickReport)
            && c.value.patient == LastPatient(rs)
  {
    EventsOfDescribed(rec, rs, rec.encounters.m[id].info.startDate);
  }
}
