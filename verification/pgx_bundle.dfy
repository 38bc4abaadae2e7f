/** `build_pgx_bundle_minimal`: one Patient, one Specimen and one
    Observation per PGx result, assembled into a collection Bundle whose
    references all point at the two ids chosen up front. */
module PgxBundle {
  import opened JsonValues
  import opened Ids
  import opened Resources
  import opened Bundles

  /** `MinimalPgxRecord` */
  datatype MinimalPgxRecord = MinimalPgxRecord(gene: string, diplotype: Option<string>, phenotype: Option<string>)

  /** `build_pgx_bundle_minimal`'s default for `specimen_type_text`. */
  const DefaultMinimalSpecimenType := "Blood specimen"

  /** The Observation the loop builds for `rec` when its id is drawn at `d`:
      no report time is passed, so the clock is read at `d + 1`. */
  function ObservationFor(rec: MinimalPgxRecord, patientRef: string, specimenRef: string,
                          env: Env, d: nat): (o: Resource)
    ensures o.Observation? && o.id == NewId("observation", env.hex(d))
    ensures o.subject == patientRef && o.specimen == Present(Some(specimenRef))
    ensures o.issued == env.clock(d + 1) && o.effectiveDateTime == o.issued
    ensures o.component == Components(rec.gene, rec.diplotype, rec.phenotype)
  {
    BuildObservation(NewId("observation", env.hex(d)), patientRef, Some(specimenRef),
                     rec.gene, rec.diplotype, rec.phenotype, None, DefaultCategory, env, d + 1).0
  }

  /** The Observations of `results`, in order, result `i` drawing its id
      at `d + 2i` and its timestamp at `d + 2i + 1`. */
  function Observations(results: seq<MinimalPgxRecord>, patientRef: string, specimenRef: string,
                        env: Env, d: nat): (os: seq<Resource>)
    ensures |os| == |results|
  {
    if results == [] then []
    else Observations(results[..|results| - 1], patientRef, specimenRef, env, d)
         + [ObservationFor(results[|results| - 1], patientRef, specimenRef, env, d + 2 * (|results| - 1))]
  }

  /** Observation `i` is the one built for result `i` from draws `d + 2i`
      and `d + 2i + 1`. */
  lemma {:induction false} ObservationsAt(results: seq<MinimalPgxRecord>, patientRef: string, specimenRef: string,
                                          env: Env, d: nat)
    ensures forall i :: 0 <= i < |results| ==>
              Observations(results, patientRef, specimenRef, env, d)[i]
              == ObservationFor(results[i], patientRef, specimenRef, env, d + 2 * i)
  {
    if results != [] {
      var init := results[..|results| - 1];
      ObservationsAt(init, patientRef, specimenRef, env, d);
      forall i | 0 <= i < |results| - 1
        ensures Observations(results, patientRef, specimenRef, env, d)[i]
                == ObservationFor(results[i], patientRef, specimenRef, env, d + 2 * i)
      {
        assert results[i] == init[i];
      }
    }
  }

  /** Every Observation of the loop has a non-empty id. */
  lemma ObservationsHaveIds(results: seq<MinimalPgxRecord>, patientRef: string, specimenRef: string,
                            env: Env, d: nat)
    ensures forall i :: 0 <= i < |results| ==>
              && Observations(results, patientRef, specimenRef, env, d)[i].Observation?
              && Observations(results, patientRef, specimenRef, env, d)[i].id != ""
  {
    ObservationsAt(results, patientRef, specimenRef, env, d);
  }

  /** The loop of `build_pgx_bundle_minimal` over `pgx_results`. */
  method BuildObservations(pgxResults: seq<MinimalPgxRecord>, patientRef: string, specimenRef: string,
                           env: Env, at: nat)
    returns (observations: seq<Resource>, next: nat)
    ensures observations == Observations(pgxResults, patientRef, specimenRef, env, at)
    ensures next == at + 2 * |pgxResults|
  {
    observations, next := [], at;
    for i := 0 to |pgxResults|
      invariant observations == Observations(pgxResults[..i], patientRef, specimenRef, env, at)
      invariant next == at + 2 * i
    {
      var rec := pgxResults[i];
      var oid := NewId("observation", env.hex(next));
      var built := BuildObservation(oid, patientRef, Some(specimenRef), rec.gene, rec.diplotype,
                                    rec.phenotype, None, DefaultCategory, env, next + 1);
      observations := observations + [built.0];
      next := built.1;
      assert pgxResults[..i + 1][..i] == pgxResults[..i];
    }
    assert pgxResults[..|pgxResults|] == pgxResults;
  }

  /** The reference integrity `build_pgx_bundle_minimal` promises: Patient
      first with id `pid`, Specimen second with id `sid` and subject
      `Patient/<pid>`, then one Observation per result, in order, each with
      a generated `observation-` id, referencing `Patient/<pid>` and
      `Specimen/<sid>` and carrying its result's components; every entry's
      `fullUrl` is `urn:uuid:` + the id of its resource. */
  predicate Integrity(b: Bundle, pid: string, sid: string, results: seq<MinimalPgxRecord>) {
    && |b.entry| == 2 + |results|
    && (forall k :: 0 <= k < |b.entry| ==>
          IdOf(b.entry[k].resource).Some? && b.entry[k].fullUrl == UrnUuid + IdOf(b.entry[k].resource).value)
    && b.entry[0].resource.Patient? && b.entry[0].resource.id == pid
    && b.entry[1].resource.Specimen? && b.entry[1].resource.id == sid
    && b.entry[1].resource.subject == "Patient/" + pid
    && forall k :: 2 <= k < |b.entry| ==>
         var o := b.entry[k].resource;
         && o.Observation? && IsGeneratedId(o.id, "observation")
         && o.status == "final" && o.code == PgxCodeText && o.category == DefaultCategory
         && o.subject == "Patient/" + pid && o.specimen == Some("Specimen/" + sid)
         && o.component == Components(results[k - 2].gene, results[k - 2].diplotype, results[k - 2].phenotype)
  }

  /** `patient_id or _new_id("patient")`, the first draw. */
  function PatientIdOf(patientId: Option<string>, env: Env, at: nat): (pid: string)
    ensures Truthy(patientId) ==> pid == patientId.value
    ensures !Truthy(patientId) ==> IsGeneratedId(pid, "patient") && pid == NewId("patient", env.hex(at))
  {
    PickId(patientId, "patient", env, at).0
  }

  /** `specimen_id or _new_id("specimen")`, drawn after the patient id. */
  function SpecimenIdOf(patientId: Option<string>, specimenId: Option<string>, env: Env, at: nat): (sid: string)
    ensures Truthy(specimenId) ==> sid == specimenId.value
    ensures !Truthy(specimenId) ==> IsGeneratedId(sid, "specimen")
    ensures !Truthy(specimenId) ==>
              sid == NewId("specimen", env.hex(if Truthy(patientId) then at else at + 1))
  {
    PickId(specimenId, "specimen", env, PickId(patientId, "patient", env, at).1).0
  }

  /** The next draw after the patient and specimen ids are chosen. */
  function IdDraws(patientId: Option<string>, specimenId: Option<string>, at: nat): nat {
    at + (if Truthy(patientId) then 0 else 1) + (if Truthy(specimenId) then 0 else 1)
  }

  /** The Bundle `build_pgx_bundle_minimal` returns once the ids `pid` and
      `sid` are chosen and `d` is the next draw, and the draw after it. */
  function AssembledBundle(pid: string, sid: string,
                           given: Option<string>, family: Option<string>,
                           birthDate: Option<string>, sex: Option<string>,
                           specimenTypeText: string, results: seq<MinimalPgxRecord>,
                           env: Env, d: nat): (Bundle, nat)
  {
    var patientRef := "Patient/" + pid;
    var specimenRef := "Specimen/" + sid;
    var patient := BuildPatient(pid, given, family, birthDate, sex);
    var specimen := BuildSpecimen(sid, patientRef, specimenTypeText);
    var observations := Observations(results, patientRef, specimenRef, env, d);
    CollectionBundle([patient, specimen] + observations, None, env, d + 2 * |results|)
  }

  /** The Bundle `build_pgx_bundle_minimal` returns, and the next draw. */
  function MinimalBundle(patientId: Option<string>, specimenId: Option<string>,
                         given: Option<string>, family: Option<string>,
                         birthDate: Option<string>, sex: Option<string>,
                         specimenTypeText: string := DefaultMinimalSpecimenType, results: seq<MinimalPgxRecord>,
                         env: Env, at: nat): (Bundle, nat)
  {
    var pidDraw := PickId(patientId, "patient", env, at);
    var sidDraw := PickId(specimenId, "specimen", env, pidDraw.1);
    AssembledBundle(pidDraw.0, sidDraw.0, given, family, birthDate, sex, specimenTypeText, results, env, sidDraw.1)
  }

  /** `build_pgx_bundle_minimal`. Draws, in order: the patient id and the
      specimen id (each only when not supplied), two per result, then the
      bundle id and the bundle timestamp. */
  method BuildPgxBundleMinimal(patientId: Option<string>, specimenId: Option<string>,
                               given: Option<string>, family: Option<string>,
                               birthDate: Option<string>, sex: Option<string>,
                               specimenTypeText: string := DefaultMinimalSpecimenType, pgxResults: seq<MinimalPgxRecord>,
                               env: Env, at: nat)
    returns (bundle: Bundle, next: nat)
    ensures (bundle, next) == MinimalBundle(patientId, specimenId, given, family, birthDate, sex,
                                            specimenTypeText, pgxResults, env, at)
  {
    var pidDraw := PickId(patientId, "patient", env, at);
    var sidDraw := PickId(specimenId, "specimen", env, pidDraw.1);
    var pid, sid := pidDraw.0, sidDraw.0;
    var patientRef := "Patient/" + pid;
    var specimenRef := "Specimen/" + sid;
    var patient := BuildPatient(pid, given, family, birthDate, sex);
    var specimen := BuildSpecimen(sid, patientRef, specimenTypeText);
    var observations, afterObservations := BuildObservations(pgxResults, patientRef, specimenRef, env, sidDraw.1);
    bundle, next := BuildBundleCollection([patient, specimen] + observations, None, env, afterObservations);
    AssembledBundleIs(pid, sid, given, family, birthDate, sex, specimenTypeText, pgxResults, env, sidDraw.1,
                      patient, specimen, observations);
  }

  /** `AssembledBundle` is the collection of the Patient, the Specimen and
      the Observations built for the chosen ids. */
  lemma AssembledBundleIs(pid: string, sid: string,
                          given: Option<string>, family: Option<string>,
                          birthDate: Option<string>, sex: Option<string>,
                          specimenTypeText: string, results: seq<MinimalPgxRecord>,
                          env: Env, d: nat, patient: Resource, specimen: Resource, observations: seq<Resource>)
    requires patient == BuildPatient(pid, given, family, birthDate, sex)
    requires specimen == BuildSpecimen(sid, "Patient/" + pid, specimenTypeText)
    requires observations == Observations(results, "Patient/" + pid, "Specimen/" + sid, env, d)
    ensures AssembledBundle(pid, sid, given, family, birthDate, sex, specimenTypeText, results, env, d)
            == CollectionBundle([patient, specimen] + observations, None, env, d + 2 * |results|)
  {
  }

  /** The entries `build_pgx_bundle_minimal` produces, given the ids and
      the draw `d` after them: the Patient, the Specimen referencing it, and
      the Observation of each result, each under `urn:uuid:` + its id. */
  predicate MinimalEntries(b: Bundle, pid: string, sid: string,
                           given: Option<string>, family: Option<string>,
                           birthDate: Option<string>, sex: Option<string>,
                           specimenTypeText: string, results: seq<MinimalPgxRecord>, env: Env, d: nat) {
    && |b.entry| == 2 + |results|
    && b.entry[0] == Entry(UrnUuid + pid, BuildPatient(pid, given, family, birthDate, sex))
    && b.entry[1] == Entry(UrnUuid + sid, BuildSpecimen(sid, "Patient/" + pid, specimenTypeText))
    && forall k :: 2 <= k < |b.entry| ==>
         var o := ObservationFor(results[k - 2], "Patient/" + pid, "Specimen/" + sid, env, d + 2 * (k - 2));
         b.entry[k] == Entry(UrnUuid + o.id, o)
  }

  /** Assembling `[patient, specimen] + observations`, all built with truthy
      ids, wraps each unchanged in order; the bundle id and timestamp are the
      next two draws. */
  lemma AssembleBuilt(b: Bundle, next: nat, patient: Resource, specimen: Resource,
                      observations: seq<Resource>, env: Env, d: nat)
    requires (b, next) == CollectionBundle([patient, specimen] + observations, None, env, d)
    requires patient.Patient? && patient.id != ""
    requires specimen.Specimen? && specimen.id != ""
    requires forall i :: 0 <= i < |observations| ==> observations[i].Observation? && observations[i].id != ""
    ensures |b.entry| == 2 + |observations|
    ensures b.entry[0] == Entry(UrnUuid + patient.id, patient)
    ensures b.entry[1] == Entry(UrnUuid + specimen.id, specimen)
    ensures forall k :: 2 <= k < |b.entry| ==>
              b.entry[k] == Entry(UrnUuid + observations[k - 2].id, observations[k - 2])
    ensures b.id == NewId("bundle", env.hex(d))
    ensures b.timestamp == env.clock(d + 1)
    ensures next == d + 2
  {
    var resources := [patient, specimen] + observations;
    forall k | 0 <= k < |resources|
      ensures !resources[k].Other? && Truthy(IdOf(resources[k]))
    {
      if k >= 2 {
        assert resources[k] == observations[k - 2];
      }
    }
    CollectionShape(resources, None, env, d);
    CollectionKeepsResources(b, resources, None, env, d, next);
    forall k | 2 <= k < |b.entry|
      ensures b.entry[k] == Entry(UrnUuid + observations[k - 2].id, observations[k - 2])
    {
      assert resources[k] == observations[k - 2];
    }
  }

  /** The bundle holds the Patient, the Specimen and one Observation per
      result, in order, each exactly as built and under `urn:uuid:` + its
      id; the bundle id and timestamp are the last two draws. */
  lemma MinimalBundleEntries(patientId: Option<string>, specimenId: Option<string>,
                             given: Option<string>, family: Option<string>,
                             birthDate: Option<string>, sex: Option<string>,
                             specimenTypeText: string, results: seq<MinimalPgxRecord>,
                             env: Env, at: nat)
    ensures var r := MinimalBundle(patientId, specimenId, given, family, birthDate, sex,
                                   specimenTypeText, results, env, at);
            var d := IdDraws(patientId, specimenId, at);
            && MinimalEntries(r.0, PatientIdOf(patientId, env, at), SpecimenIdOf(patientId, specimenId, env, at),
                              given, family, birthDate, sex, specimenTypeText, results, env, d)
            && r.0.id == NewId("bundle", env.hex(d + 2 * |results|))
            && r.0.timestamp == env.clock(d + 2 * |results| + 1)
            && r.1 == d + 2 * |results| + 2
  {
    var r := MinimalBundle(patientId, specimenId, given, family, birthDate, sex, specimenTypeText, results, env, at);
    var pidDraw := PickId(patientId, "patient", env, at);
    var sidDraw := PickId(specimenId, "specimen", env, pidDraw.1);
    assert pidDraw.0 == PatientIdOf(patientId, env, at);
    assert sidDraw.0 == SpecimenIdOf(patientId, specimenId, env, at);
    assert sidDraw.1 == IdDraws(patientId, specimenId, at);
    AssembledMinimal(r.0, r.1, pidDraw.0, sidDraw.0,
                     given, family, birthDate, sex, specimenTypeText, results, env, sidDraw.1);
  }

  /** `MinimalBundleEntries` for given ids `pid`, `sid` and draw `d`. */
  lemma AssembledMinimal(b: Bundle, next: nat, pid: string, sid: string,
                         given: Option<string>, family: Option<string>,
                         birthDate: Option<string>, sex: Option<string>,
                         specimenTypeText: string, results: seq<MinimalPgxRecord>, env: Env, d: nat)
    requires pid != "" && sid != ""
    requires (b, next) == AssembledBundle(pid, sid, given, family, birthDate, sex, specimenTypeText, results, env, d)
    ensures MinimalEntries(b, pid, sid, given, family, birthDate, sex, specimenTypeText, results, env, d)
    ensures b.id == NewId("bundle", env.hex(d + 2 * |results|))
    ensures b.timestamp == env.clock(d + 2 * |results| + 1)
    ensures next == d + 2 * |results| + 2
  {
    var observations := Observations(results, "Patient/" + pid, "Specimen/" + sid, env, d);
    ObservationsAt(results, "Patient/" + pid, "Specimen/" + sid, env, d);
    ObservationsHaveIds(results, "Patient/" + pid, "Specimen/" + sid, env, d);
    AssembleBuilt(b, next, BuildPatient(pid, given, family, birthDate, sex),
                  BuildSpecimen(sid, "Patient/" + pid, specimenTypeText), observations, env, d + 2 * |results|);
    forall k | 2 <= k < |b.entry|
      ensures var o := ObservationFor(results[k - 2], "Patient/" + pid, "Specimen/" + sid, env, d + 2 * (k - 2));
              b.entry[k] == Entry(UrnUuid + o.id, o)
    {
      assert observations[k - 2] == ObservationFor(results[k - 2], "Patient/" + pid, "Specimen/" + sid,
                                                   env, d + 2 * (k - 2));
    }
  }

  /** The entries the function builds have the integrity the bundle
      promises. */
  lemma MinimalEntriesIntegrity(b: Bundle, pid: string, sid: string,
                                given: Option<string>, family: Option<string>,
                                birthDate: Option<string>, sex: Option<string>,
                                specimenTypeText: string, results: seq<MinimalPgxRecord>, env: Env, d: nat)
    requires MinimalEntries(b, pid, sid, given, family, birthDate, sex, specimenTypeText, results, env, d)
    ensures Integrity(b, pid, sid, results)
  {
    forall k | 2 <= k < |b.entry|
      ensures IsGeneratedId(b.entry[k].resource.id, "observation")
    {
    }
  }

  /** `build_pgx_bundle_minimal` keeps reference integrity: every
      Observation points at the bundle's own Patient and Specimen. */
  lemma MinimalBundleIntegrity(patientId: Option<string>, specimenId: Option<string>,
                               given: Option<string>, family: Option<string>,
                               birthDate: Option<string>, sex: Option<string>,
                               specimenTypeText: string, results: seq<MinimalPgxRecord>,
                               env: Env, at: nat)
    ensures Integrity(MinimalBundle(patientId, specimenId, given, family, birthDate, sex,
                                    specimenTypeText, results, env, at).0,
                      PatientIdOf(patientId, env, at), SpecimenIdOf(patientId, specimenId, env, at), results)
  {
    MinimalBundleEntries(patientId, specimenId, given, family, birthDate, sex, specimenTypeText, results, env, at);
    MinimalEntriesIntegrity(MinimalBundle(patientId, specimenId, given, family, birthDate, sex,
                                          specimenTypeText, results, env, at).0,
                            PatientIdOf(patientId, env, at), SpecimenIdOf(patientId, specimenId, env, at),
                            given, family, birthDate, sex, specimenTypeText, results, env,
                            IdDraws(patientId, specimenId, at));
  }

  /** Choosing the ids beforehand, with the same draws, and passing them in
      gives the same bundle as letting `build_pgx_bundle_minimal` choose
      them. */
  lemma MinimalBundleSuppliedIds(patientId: Option<string>, specimenId: Option<string>,
                                 given: Option<string>, family: Option<string>,
                                 birthDate: Option<string>, sex: Option<string>,
                                 specimenTypeText: string, results: seq<MinimalPgxRecord>,
                                 env: Env, at: nat)
    ensures MinimalBundle(Some(PatientIdOf(patientId, env, at)), Some(SpecimenIdOf(patientId, specimenId, env, at)),
                          given, family, birthDate, sex, specimenTypeText, results,
                          env, IdDraws(patientId, specimenId, at))
            == MinimalBundle(patientId, specimenId, given, family, birthDate, sex, specimenTypeText, results, env, at)
  {
    var pidDraw := PickId(patientId, "patient", env, at);
    var sidDraw := PickId(specimenId, "specimen", env, pidDraw.1);
    var d := IdDraws(patientId, specimenId, at);
    assert sidDraw.1 == d;
    assert PickId(Some(PatientIdOf(patientId, env, at)), "patient", env, d) == (pidDraw.0, d);
    assert PickId(Some(SpecimenIdOf(patientId, specimenId, env, at)), "specimen", env, d) == (sidDraw.0, d);
  }

  /** The first entry of the bundle is the Patient built from the chosen
      id and the given fields. */
  lemma MinimalBundlePatient(patientId: Option<string>, specimenId: Option<string>,
                             given: Option<string>, family: Option<string>,
                             birthDate: Option<string>, sex: Option<string>,
                             specimenTypeText: string, results: seq<MinimalPgxRecord>,
                             env: Env, at: nat)
    ensures var b := MinimalBundle(patientId, specimenId, given, family, birthDate, sex,
                                   specimenTypeText, results, env, at).0;
            |b.entry| == 2 + |results| &&
            b.entry[0].resource == BuildPatient(PatientIdOf(patientId, env, at), given, family, birthDate, sex)
  {
    MinimalBundleEntries(patientId, specimenId, given, family, birthDate, sex, specimenTypeText, results, env, at);
  }

  /** When neither id is supplied, the two drawn ids are distinct, so the
      Patient and the Specimen never collide. */
  lemma GeneratedIdsDistinct(patientId: Option<string>, specimenId: Option<string>, env: Env, at: nat)
    requires !Truthy(patientId) && !Truthy(specimenId)
    ensures PatientIdOf(patientId, env, at) != SpecimenIdOf(patientId, specimenId, env, at)
  {
    GeneratedIdsDiffer(PatientIdOf(patientId, env, at), "patient",
                       SpecimenIdOf(patientId, specimenId, env, at), "specimen");
  }

  /** The repository's own scenario: ids `P1` and `S1`, two CYP results.
      The bundle has four entries: the Patient `P1`, the Specimen `S1`
      referencing it, and two final Observations referencing both, each
      carrying its result's components, gene first. */
  lemma TwoResultExample(env: Env, at: nat)
    ensures var results := [MinimalPgxRecord("CYP2C19", Some("*1/*2"), Some("intermediate metabolizer")),
                            MinimalPgxRecord("CYP2D6", Some("*1/*4"), Some("intermediate metabolizer"))];
            Integrity(MinimalBundle(Some("P1"), Some("S1"), None, None, Some("1991-10-09"), Some("female"),
                                    "blood", results, env, at).0, "P1", "S1", results)
  {
    var results := [MinimalPgxRecord("CYP2C19", Some("*1/*2"), Some("intermediate metabolizer")),
                    MinimalPgxRecord("CYP2D6", Some("*1/*4"), Some("intermediate metabolizer"))];
    MinimalBundleIntegrity(Some("P1"), Some("S1"), None, None, Some("1991-10-09"), Some("female"),
                           "blood", results, env, at);
  }

  /** In the rendered bundle, every entry's `fullUrl` is `urn:uuid:`
      followed by the `id` its resource dict holds. */
  lemma MinimalBundleJsonUrls(patientId: Option<string>, specimenId: Option<string>,
                              given: Option<string>, family: Option<string>,
                              birthDate: Option<string>, sex: Option<string>,
                              specimenTypeText: string, results: seq<MinimalPgxRecord>,
                              env: Env, at: nat)
    ensures var b := MinimalBundle(patientId, specimenId, given, family, birthDate, sex,
                                   specimenTypeText, results, env, at).0;
            forall k :: 0 <= k < |b.entry| ==>
              exists id: string ::
                && Get(EntryJson(b.entry[k]).obj, "fullUrl") == Some(JStr(UrnUuid + id))
                && Get(ResourceJson(b.entry[k].resource), "id") == Some(JStr(id))
  {
    var b := MinimalBundle(patientId, specimenId, given, family, birthDate, sex,
                           specimenTypeText, results, env, at).0;
    MinimalBundleIntegrity(patientId, specimenId, given, family, birthDate, sex, specimenTypeText, results, env, at);
    forall k | 0 <= k < |b.entry|
      ensures exists id: string ::
                && Get(EntryJson(b.entry[k]).obj, "fullUrl") == Some(JStr(UrnUuid + id))
                && Get(ResourceJson(b.entry[k].resource), "id") == Some(JStr(id))
    {
      var e := b.entry[k];
      EntryJsonFields(e);
      ResourceJsonId(e.resource);
      var id := IdOf(e.resource).value;
      assert Get(EntryJson(e).obj, "fullUrl") == Some(JStr(UrnUuid + id));
    }
  }
}
