/** `build_bundle_from_pgx_input`: reads the patient, specimen and result
    records of a PgX input by trying ordered lists of attribute names, and
    builds the minimal bundle from what it finds. */
module Adapter {
  import opened JsonValues
  import opened Ids
  import opened Resources
  import opened Bundles
  import opened PgxBundle

  /** An input record seen through `hasattr`/`getattr`: a name it lacks is
      not a key; an attribute holding `None` maps to `None`. Attribute
      values are the strings `str()` gives for them. */
  type Record = map<string, Option<string>>

  /** `PgXInput`: the patient, the specimen and the gene results. */
  datatype PgxInput = PgxInput(patient: Record, specimen: Record, results: seq<Record>)

  datatype Result<T> = Ok(value: T) | Err(msg: string)

  // The candidate names, in the order they are tried.
  const PatientIdNames := ["id", "patient_id"]
  const SpecimenIdNames := ["id", "specimen_id"]
  const GivenNames := ["given", "first_name", "firstname", "name", "nombres", "nombre"]
  const FamilyNames := ["family", "last_name", "lastname", "surname", "apellidos", "apellido"]
  const BirthDateNames := ["birth_date", "birthdate", "date_of_birth", "dob", "fecha_nacimiento"]
  const SexNames := ["sex", "gender", "sexo", "genero"]
  const SpecimenTypeNames := ["type_text", "specimen_type", "type", "tipo"]
  const GeneNames := ["gene", "gen"]
  const DiplotypeNames := ["diplotype", "diplotipo"]
  const PhenotypeNames := ["phenotype", "fenotipo"]

  /** The `ValueError` raised for a result without a gene. */
  const MissingGeneMessage := "Result record missing gene (tried: gene/gen)."

  /** Name `n` is an attribute of `obj` whose value is not `None`. */
  predicate IsHit(obj: Record, n: string) {
    n in obj && obj[n].Some?
  }

  /** What `_get(obj, *names)` returns. */
  function Resolve(obj: Record, names: seq<string>): Option<string> {
    if names == [] then None
    else if IsHit(obj, names[0]) then obj[names[0]]
    else Resolve(obj, names[1..])
  }

  /** `_get`: the first candidate that is present and not `None` wins;
      `None` when there is none. */
  lemma {:induction false} ResolveFirstHit(obj: Record, names: seq<string>)
    ensures Resolve(obj, names).None? <==> forall i :: 0 <= i < |names| ==> !IsHit(obj, names[i])
    ensures forall i :: 0 <= i < |names| && IsHit(obj, names[i]) &&
                        (forall j :: 0 <= j < i ==> !IsHit(obj, names[j])) ==>
              Resolve(obj, names) == obj[names[i]]
  {
    if names != [] {
      ResolveFirstHit(obj, names[1..]);
      if !IsHit(obj, names[0]) {
        forall i | 0 < i < |names| && IsHit(obj, names[i]) && (forall j :: 0 <= j < i ==> !IsHit(obj, names[j]))
          ensures Resolve(obj, names) == obj[names[i]]
        {
          assert names[1..][i - 1] == names[i];
          assert forall j :: 0 <= j < i - 1 ==> names[1..][j] == names[j + 1];
        }
      }
    }
  }

  /** `_get`, scanning the names in order and returning at the first hit. */
  method GetAttr(obj: Record, names: seq<string>) returns (v: Option<string>)
    ensures v == Resolve(obj, names)
  {
    for i := 0 to |names|
      invariant Resolve(obj, names) == Resolve(obj, names[i..])
    {
      assert names[i..][1..] == names[i + 1..];
      var n := names[i];
      if n in obj {
        var value := obj[n];
        if value.Some? {
          return value;
        }
      }
    }
    return None;
  }

  /** The record a result maps to, or `None` when its gene is missing. */
  function ResultRecord(r: Record): Option<MinimalPgxRecord> {
    match Resolve(r, GeneNames)
    case None => None
    case Some(gene) => Some(MinimalPgxRecord(gene, Resolve(r, DiplotypeNames), Resolve(r, PhenotypeNames)))
  }

  /** The results loop: the records in order, or the error of the first
      result without a gene. */
  function MapResults(rs: seq<Record>): Result<seq<MinimalPgxRecord>> {
    if rs == [] then Ok([])
    else
      match MapResults(rs[..|rs| - 1])
      case Err(m) => Err(m)
      case Ok(prev) =>
        match ResultRecord(rs[|rs| - 1])
        case None => Err(MissingGeneMessage)
        case Some(rec) => Ok(prev + [rec])
  }

  /** The results loop fails exactly when some result has neither `gene`
      nor `gen`, always with the same message; otherwise it maps every
      result, in order, to its gene, diplotype and phenotype. */
  lemma {:induction false} MapResultsSpec(rs: seq<Record>)
    ensures MapResults(rs).Err? <==> exists i :: 0 <= i < |rs| && Resolve(rs[i], GeneNames).None?
    ensures MapResults(rs).Err? ==> MapResults(rs).msg == MissingGeneMessage
    ensures MapResults(rs).Ok? ==>
              && |MapResults(rs).value| == |rs|
              && forall i :: 0 <= i < |rs| ==> Some(MapResults(rs).value[i]) == ResultRecord(rs[i])
  {
    if rs != [] {
      var init := rs[..|rs| - 1];
      MapResultsSpec(init);
      assert forall i :: 0 <= i < |init| ==> init[i] == rs[i];
      if MapResults(init).Err? {
        var i :| 0 <= i < |init| && Resolve(init[i], GeneNames).None?;
        assert Resolve(rs[i], GeneNames).None?;
      }
    }
  }

  /** The results loop of `build_bundle_from_pgx_input`. */
  method MapResultsLoop(rs: seq<Record>) returns (r: Result<seq<MinimalPgxRecord>>)
    ensures r == MapResults(rs)
  {
    var results: seq<MinimalPgxRecord> := [];
    for i := 0 to |rs|
      invariant MapResults(rs[..i]) == Ok(results)
    {
      assert rs[..i + 1][..i] == rs[..i];
      var gene := GetAttr(rs[i], GeneNames);
      var diplotype := GetAttr(rs[i], DiplotypeNames);
      var phenotype := GetAttr(rs[i], PhenotypeNames);
      if gene.None? {
        MapResultsStopsAtError(rs, i + 1);
        return Err(MissingGeneMessage);
      }
      results := results + [MinimalPgxRecord(gene.value, diplotype, phenotype)];
    }
    assert rs[..|rs|] == rs;
    return Ok(results);
  }

  /** Once a prefix fails, the whole sequence fails with the same error. */
  lemma {:induction false} MapResultsStopsAtError(rs: seq<Record>, n: nat)
    requires n <= |rs| && MapResults(rs[..n]).Err?
    ensures MapResults(rs) == MapResults(rs[..n])
    decreases |rs| - n
  {
    if n < |rs| {
      assert rs[..n + 1][..n] == rs[..n];
      MapResultsStopsAtError(rs, n + 1);
    } else {
      assert rs[..n] == rs;
    }
  }

  /** What `build_bundle_from_pgx_input` returns: the minimal bundle of the
      resolved fields, or the missing-gene error. */
  function FromPgxInput(input: PgxInput, env: Env, at: nat): Result<(Bundle, nat)> {
    match MapResults(input.results)
    case Err(m) => Err(m)
    case Ok(results) =>
      Ok(MinimalBundle(Resolve(input.patient, PatientIdNames), Resolve(input.specimen, SpecimenIdNames),
                       Resolve(input.patient, GivenNames), Resolve(input.patient, FamilyNames),
                       Resolve(input.patient, BirthDateNames), Resolve(input.patient, SexNames),
                       OrElse(Resolve(input.specimen, SpecimenTypeNames), DefaultMinimalSpecimenType),
                       results, env, at))
  }

  /** `build_bundle_from_pgx_input`. The ids are chosen (and drawn when
      missing) before the results are read, and then passed on as given. */
  method BuildBundleFromPgxInput(input: PgxInput, env: Env, at: nat) returns (r: Result<(Bundle, nat)>)
    ensures r == FromPgxInput(input, env, at)
  {
    var patientIdAttr := GetAttr(input.patient, PatientIdNames);
    var pidDraw := PickId(patientIdAttr, "patient", env, at);
    var specimenIdAttr := GetAttr(input.specimen, SpecimenIdNames);
    var sidDraw := PickId(specimenIdAttr, "specimen", env, pidDraw.1);
    var given := GetAttr(input.patient, GivenNames);
    var family := GetAttr(input.patient, FamilyNames);
    var birthDate := GetAttr(input.patient, BirthDateNames);
    var sex := GetAttr(input.patient, SexNames);
    var specimenTypeAttr := GetAttr(input.specimen, SpecimenTypeNames);
    var specimenTypeText := OrElse(specimenTypeAttr, DefaultMinimalSpecimenType);
    var results := MapResultsLoop(input.results);
    if results.Err? {
      return Err(results.msg);
    }
    var bundle, next := BuildPgxBundleMinimal(Some(pidDraw.0), Some(sidDraw.0), given, family, birthDate, sex,
                                              specimenTypeText, results.value, env, sidDraw.1);
    assert pidDraw.0 == PatientIdOf(patientIdAttr, env, at);
    assert sidDraw.0 == SpecimenIdOf(patientIdAttr, specimenIdAttr, env, at);
    assert sidDraw.1 == IdDraws(patientIdAttr, specimenIdAttr, at);
    MinimalBundleSuppliedIds(patientIdAttr, specimenIdAttr, given, family, birthDate, sex,
                             specimenTypeText, results.value, env, at);
    return Ok((bundle, next));
  }

  /** The adapter fails exactly when some result has no gene, with the
      fixed message; otherwise its bundle has the minimal bundle's
      integrity for the resolved ids, one Observation per result. */
  lemma FromPgxInputOutcome(input: PgxInput, env: Env, at: nat)
    ensures FromPgxInput(input, env, at).Err? <==>
              exists i :: 0 <= i < |input.results| && Resolve(input.results[i], GeneNames).None?
    ensures FromPgxInput(input, env, at).Err? ==> FromPgxInput(input, env, at).msg == MissingGeneMessage
    ensures FromPgxInput(input, env, at).Ok? ==>
              Integrity(FromPgxInput(input, env, at).value.0,
                        PatientIdOf(Resolve(input.patient, PatientIdNames), env, at),
                        SpecimenIdOf(Resolve(input.patient, PatientIdNames), Resolve(input.specimen, SpecimenIdNames), env, at),
                        MapResults(input.results).value)
  {
    MapResultsSpec(input.results);
    if MapResults(input.results).Ok? {
      MinimalBundleIntegrity(Resolve(input.patient, PatientIdNames), Resolve(input.specimen, SpecimenIdNames),
                             Resolve(input.patient, GivenNames), Resolve(input.patient, FamilyNames),
                             Resolve(input.patient, BirthDateNames), Resolve(input.patient, SexNames),
                             OrElse(Resolve(input.specimen, SpecimenTypeNames), DefaultMinimalSpecimenType),
                             MapResults(input.results).value, env, at);
    }
  }

  /** A patient record with the attributes the input model declares
      (`patient_id`, `given_name`, `family_name`, `birth_date`, `sex`) has
      its id, birth date and sex found, but none of the given-name or
      family-name candidates matches, so both resolve to `None`. */
  lemma ModelNamesMissed(patientId: string, givenName: string, familyName: string, birthDate: string, sex: string)
    ensures var p := map["patient_id" := Some(patientId), "given_name" := Some(givenName),
                         "family_name" := Some(familyName), "birth_date" := Some(birthDate), "sex" := Some(sex)];
            && Resolve(p, PatientIdNames) == Some(patientId)
            && Resolve(p, GivenNames) == None
            && Resolve(p, FamilyNames) == None
            && Resolve(p, BirthDateNames) == Some(birthDate)
            && Resolve(p, SexNames) == Some(sex)
  {
    var p := map["patient_id" := Some(patientId), "given_name" := Some(givenName),
                 "family_name" := Some(familyName), "birth_date" := Some(birthDate), "sex" := Some(sex)];
    ResolveFirstHit(p, GivenNames);
    ResolveFirstHit(p, FamilyNames);
  }

  /** So the Patient built from such a record carries no `name`. */
  lemma ModelPatientHasNoName(input: PgxInput, env: Env, at: nat)
    requires forall n :: n in GivenNames || n in FamilyNames ==> n !in input.patient
    requires FromPgxInput(input, env, at).Ok?
    ensures FromPgxInput(input, env, at).value.0.entry[0].resource.Patient?
    ensures FromPgxInput(input, env, at).value.0.entry[0].resource.name == None
  {
    ResolveFirstHit(input.patient, GivenNames);
    ResolveFirstHit(input.patient, FamilyNames);
    var results := MapResults(input.results).value;
    MinimalBundlePatient(Resolve(input.patient, PatientIdNames), Resolve(input.specimen, SpecimenIdNames),
                         None, None,
                         Resolve(input.patient, BirthDateNames), Resolve(input.patient, SexNames),
                         OrElse(Resolve(input.specimen, SpecimenTypeNames), DefaultMinimalSpecimenType),
                         results, env, at);
  }
}
