/** The three FHIR resource builders: Patient, Specimen and the PGx
    Observation. A resource is a record with one field per key of the dict
    the builder returns; an optional key is an `Option` field, and the
    builders fill it only when its input is truthy. `ResourceJson` renders a
    record as that dict, key by key in the builder's insertion order. */
module Resources {
  import opened JsonValues
  import opened Ids

  /** `build_specimen`'s default for `specimen_type_text`. */
  const DefaultSpecimenType := "specimen"
  /** `build_observation_pgx`'s default for `category_text`. */
  const DefaultCategory := "laboratory"
  /** The fixed `code.text` of every PGx Observation. */
  const PgxCodeText := "Pharmacogenomics result"

  /** The `name_parts` dict of a Patient. */
  datatype HumanName = HumanName(family: Option<string>, given: Option<string>)

  /** One entry of an Observation's `component` list:
      `{"code": {"text": name}, "valueString": value}`. */
  datatype Component = Component(name: string, value: string)

  /** A resource dict. `Other` is any dict the builders did not make, as
      the bundle assembler may receive one. */
  datatype Resource =
    | Patient(id: string, name: Option<HumanName>, birthDate: Option<string>, gender: Option<string>)
    | Specimen(id: string, subject: string, typeText: string)
    | Observation(id: string, status: string, category: string, code: string, subject: string,
                  effectiveDateTime: string, issued: string, component: seq<Component>,
                  specimen: Option<string>)
    | Other(dict: Obj)

  // ---- The builders ----

  /** `build_patient`: `name_parts` gets `family` and `given` only when
      truthy, and `name` is added only when `name_parts` is non-empty;
      `birthDate` and `gender` only when truthy. */
  function BuildPatient(patientId: string, given: Option<string>, family: Option<string>,
                        birthDate: Option<string>, sex: Option<string>): (p: Resource)
    ensures p.Patient? && p.id == patientId
    ensures p.name.Some? <==> Truthy(given) || Truthy(family)
    ensures p.birthDate == Present(birthDate) && p.gender == Present(sex)
  {
    var nameParts := HumanName(Present(family), Present(given));
    var name := if nameParts != HumanName(None, None) then Some(nameParts) else None;
    Patient(patientId, name, Present(birthDate), Present(sex))
  }

  /** `build_specimen`. */
  function BuildSpecimen(specimenId: string, patientRef: string, specimenTypeText: string := DefaultSpecimenType)
    : (s: Resource)
    ensures s.Specimen? && s.id == specimenId && s.subject == patientRef
  {
    Specimen(specimenId, patientRef, specimenTypeText)
  }

  /** The final `component` list: gene first, then diplotype and phenotype,
      each only when truthy. */
  function Components(gene: string, diplotype: Option<string>, phenotype: Option<string>): (cs: seq<Component>)
    ensures |cs| == 1 + (if Truthy(diplotype) then 1 else 0) + (if Truthy(phenotype) then 1 else 0)
    ensures cs[0] == Component("gene", gene)
    ensures Truthy(diplotype) ==> cs[1] == Component("diplotype", diplotype.value)
    ensures Truthy(phenotype) ==> cs[|cs| - 1] == Component("phenotype", phenotype.value)
  {
    var geneOnly := [Component("gene", gene)];
    var withDiplotype :=
      if Truthy(diplotype) then geneOnly + [Component("diplotype", diplotype.value)] else geneOnly;
    if Truthy(phenotype) then withDiplotype + [Component("phenotype", phenotype.value)] else withDiplotype
  }

  /** `build_observation_pgx`. The clock is read (one draw) only when no
      report time is supplied, and the same timestamp goes to
      `effectiveDateTime` and `issued`. */
  function BuildObservation(obsId: string, patientRef: string, specimenRef: Option<string>,
                            gene: string, diplotype: Option<string>, phenotype: Option<string>,
                            reportTime: Option<string>, categoryText: string := DefaultCategory,
                            env: Env, at: nat): (r: (Resource, nat))
    ensures r.1 == if Truthy(reportTime) then at else at + 1
    ensures r.0.Observation? && r.0.issued == r.0.effectiveDateTime
    ensures Truthy(reportTime) ==> r.0.issued == reportTime.value
    ensures !Truthy(reportTime) ==> r.0.issued == env.clock(at)
  {
    var issued := OrElse(reportTime, env.clock(at));
    var next := if Truthy(reportTime) then at else at + 1;
    (Observation(obsId, "final", categoryText, PgxCodeText, patientRef, issued, issued,
                 Components(gene, diplotype, phenotype), Present(specimenRef)),
     next)
  }

  // ---- Rendering as dicts ----

  /** `{"reference": target}` */
  function Reference(target: string): Json {
    JObj(Obj(["reference"], map["reference" := JStr(target)]))
  }

  /** `{"text": t}` */
  function Text(t: string): Json {
    JObj(Obj(["text"], map["text" := JStr(t)]))
  }

  function ComponentJson(c: Component): Json {
    JObj(Obj(["code", "valueString"], map["code" := Text(c.name), "valueString" := JStr(c.value)]))
  }

  function ComponentsJson(cs: seq<Component>): (js: seq<Json>)
    ensures |js| == |cs|
    ensures forall i :: 0 <= i < |cs| ==> js[i] == ComponentJson(cs[i])
  {
    seq(|cs|, i requires 0 <= i < |cs| => ComponentJson(cs[i]))
  }

  /** Each rendered component, in order, is a well-formed two-key dict
      holding its name as `code.text` and its value as `valueString`. */
  lemma ComponentsJsonFields(cs: seq<Component>)
    ensures |ComponentsJson(cs)| == |cs|
    ensures forall i :: 0 <= i < |cs| ==>
              && ComponentsJson(cs)[i].JObj?
              && IsDict(ComponentsJson(cs)[i].obj)
              && ComponentsJson(cs)[i].obj.keys == ["code", "valueString"]
              && Get(ComponentsJson(cs)[i].obj, "code") == Some(Text(cs[i].name))
              && Get(ComponentsJson(cs)[i].obj, "valueString") == Some(JStr(cs[i].value))
  {
  }

  /** `name_parts`, filled key by key: `family`, then `given` as a one-item
      list. */
  function NameJson(n: HumanName): Obj {
    var withFamily := if n.family.Some? then SetField(Empty, "family", JStr(n.family.value)) else Empty;
    if n.given.Some? then SetField(withFamily, "given", JArr([JStr(n.given.value)])) else withFamily
  }

  /** `"name": [name_parts]` when there is a name. */
  function NameValue(name: Option<HumanName>): Option<Json> {
    if name.Some? then Some(JArr([JObj(NameJson(name.value))])) else None
  }

  /** The keys of the Observation display, in order. */
  const ObservationKeys := ["resourceType", "id", "status", "category", "code", "subject",
                            "effectiveDateTime", "issued", "component"]

  /** `{"resourceType": "Patient", "id": id}` */
  function PatientDisplay(id: string): Obj {
    Obj(["resourceType", "id"], map["resourceType" := JStr("Patient"), "id" := JStr(id)])
  }

  /** A Patient dict: the display, then `name`, `birthDate` and `gender`
      inserted in that order when present. */
  function PatientJson(id: string, name: Option<HumanName>, birthDate: Option<string>, gender: Option<string>): Obj {
    var withName := SetIfPresent(PatientDisplay(id), "name", NameValue(name));
    SetIfPresent(SetIfPresent(withName, "birthDate", StrValue(birthDate)), "gender", StrValue(gender))
  }

  /** The nine-key dict display an Observation starts from. */
  function ObservationDisplay(r: Resource): Obj
    requires r.Observation?
  {
    Obj(ObservationKeys,
        map["resourceType" := JStr("Observation"), "id" := JStr(r.id), "status" := JStr(r.status),
            "category" := JArr([Text(r.category)]), "code" := Text(r.code),
            "subject" := Reference(r.subject), "effectiveDateTime" := JStr(r.effectiveDateTime),
            "issued" := JStr(r.issued), "component" := JArr(ComponentsJson(r.component))])
  }

  /** The dict a resource stands for. A Patient starts from the two-key
      display and gains its optional keys one at a time. An Observation is
      the nine-key display, whose component list is extended in place (so
      it holds the final list, at the display's position), with `specimen`
      inserted after it. */
  function ResourceJson(r: Resource): Obj {
    match r
    case Patient(id, name, birthDate, gender) => PatientJson(id, name, birthDate, gender)
    case Specimen(id, subject, typeText) =>
      Obj(["resourceType", "id", "subject", "type"],
          map["resourceType" := JStr("Specimen"), "id" := JStr(id),
              "subject" := Reference(subject), "type" := Text(typeText)])
    case Observation(_, _, _, _, _, _, _, _, specimen) =>
      var obs := ObservationDisplay(r);
      SetIfPresent(obs, "specimen", if specimen.Some? then Some(Reference(specimen.value)) else None)
    case Other(d) => d
  }

  // ---- What the builders' dicts hold ----

  /** `name_parts` holds `family` exactly when it is truthy and `given`
      exactly when it is truthy. */
  lemma NameJsonFields(given: Option<string>, family: Option<string>)
    ensures var n := NameJson(HumanName(Present(family), Present(given)));
            && Get(n, "family") == (if Truthy(family) then Some(JStr(family.value)) else None)
            && Get(n, "given") == (if Truthy(given) then Some(JArr([JStr(given.value)])) else None)
  {
  }

  /** A Patient dict holds its type and id, and holds `name`, `birthDate`
      and `gender` exactly when their inputs are truthy; `name` is then the
      one-item list of `name_parts`. */
  lemma PatientJsonFields(patientId: string, given: Option<string>, family: Option<string>,
                          birthDate: Option<string>, sex: Option<string>)
    ensures var p := ResourceJson(BuildPatient(patientId, given, family, birthDate, sex));
            && Get(p, "resourceType") == Some(JStr("Patient"))
            && Get(p, "id") == Some(JStr(patientId))
            && (Get(p, "name").Some? <==> Truthy(given) || Truthy(family))
            && (Get(p, "name").Some? ==>
                  Get(p, "name") == Some(JArr([JObj(NameJson(HumanName(Present(family), Present(given))))])))
            && Get(p, "birthDate") == (if Truthy(birthDate) then Some(JStr(birthDate.value)) else None)
            && Get(p, "gender") == (if Truthy(sex) then Some(JStr(sex.value)) else None)
  {
  }

  /** The keys of a Patient dict in `build_patient`'s insertion order. */
  function PatientKeys(given: Option<string>, family: Option<string>,
                       birthDate: Option<string>, sex: Option<string>): seq<string> {
    var withName := AppendIf(["resourceType", "id"], Truthy(given) || Truthy(family), "name");
    AppendIf(AppendIf(withName, Truthy(birthDate), "birthDate"), Truthy(sex), "gender")
  }

  /** A Patient dict's keys: type and id, then `name`, `birthDate` and
      `gender`, each exactly when its input is truthy. */
  lemma PatientJsonKeys(patientId: string, given: Option<string>, family: Option<string>,
                        birthDate: Option<string>, sex: Option<string>)
    ensures var p := ResourceJson(BuildPatient(patientId, given, family, birthDate, sex));
            p.keys == PatientKeys(given, family, birthDate, sex)
  {
    var p := BuildPatient(patientId, given, family, birthDate, sex);
    PatientRecordKeys(p.id, p.name, p.birthDate, p.gender);
  }

  /** The keys of any Patient record's dict: the display's two, then each
      optional field that is present. */
  lemma PatientRecordKeys(id: string, name: Option<HumanName>, birthDate: Option<string>, gender: Option<string>)
    ensures PatientJson(id, name, birthDate, gender).keys
            == AppendIf(AppendIf(AppendIf(["resourceType", "id"], name.Some?, "name"),
                                 birthDate.Some?, "birthDate"),
                        gender.Some?, "gender")
  {
    var withName := SetIfPresent(PatientDisplay(id), "name", NameValue(name));
    var withBirthDate := SetIfPresent(withName, "birthDate", StrValue(birthDate));
    SetIfPresentKeys(PatientDisplay(id), "name", NameValue(name));
    SetIfPresentKeys(withName, "birthDate", StrValue(birthDate));
    SetIfPresentKeys(withBirthDate, "gender", StrValue(gender));
  }

  /** A Specimen dict has exactly four keys, in this order, with these
      values. */
  lemma SpecimenJsonExact(specimenId: string, patientRef: string, specimenTypeText: string)
    ensures var s := ResourceJson(BuildSpecimen(specimenId, patientRef, specimenTypeText));
            && IsDict(s) && s.keys == ["resourceType", "id", "subject", "type"]
            && Get(s, "resourceType") == Some(JStr("Specimen"))
            && Get(s, "id") == Some(JStr(specimenId))
            && Get(s, "subject") == Some(Reference(patientRef))
            && Get(s, "type") == Some(Text(specimenTypeText))
  {
  }

  /** The fixed fields of every PGx Observation dict. */
  lemma ObservationJsonFixed(obsId: string, patientRef: string, specimenRef: Option<string>,
                             gene: string, diplotype: Option<string>, phenotype: Option<string>,
                             reportTime: Option<string>, categoryText: string, env: Env, at: nat)
    ensures var o := ResourceJson(BuildObservation(obsId, patientRef, specimenRef, gene, diplotype, phenotype,
                                                   reportTime, categoryText, env, at).0);
            && Get(o, "resourceType") == Some(JStr("Observation"))
            && Get(o, "status") == Some(JStr("final"))
            && Get(o, "code") == Some(Text(PgxCodeText))
            && Get(o, "category") == Some(JArr([Text(categoryText)]))
  {
  }

  /** An Observation dict carries its id, its subject, its timestamps, and
      a `specimen` key exactly when the specimen reference is truthy. */
  lemma ObservationJsonLinks(obsId: string, patientRef: string, specimenRef: Option<string>,
                             gene: string, diplotype: Option<string>, phenotype: Option<string>,
                             reportTime: Option<string>, categoryText: string, env: Env, at: nat)
    ensures var o := ResourceJson(BuildObservation(obsId, patientRef, specimenRef, gene, diplotype, phenotype,
                                                   reportTime, categoryText, env, at).0);
            && Get(o, "id") == Some(JStr(obsId))
            && Get(o, "subject") == Some(Reference(patientRef))
            && Get(o, "issued") == Some(JStr(OrElse(reportTime, env.clock(at))))
            && Get(o, "effectiveDateTime") == Get(o, "issued")
            && Get(o, "specimen") == (if Truthy(specimenRef) then Some(Reference(specimenRef.value)) else None)
  {
  }

  /** An Observation dict's `component` list: gene first, then diplotype
      and phenotype when truthy. */
  lemma ObservationJsonComponents(obsId: string, patientRef: string, specimenRef: Option<string>,
                                  gene: string, diplotype: Option<string>, phenotype: Option<string>,
                                  reportTime: Option<string>, categoryText: string, env: Env, at: nat)
    ensures var o := ResourceJson(BuildObservation(obsId, patientRef, specimenRef, gene, diplotype, phenotype,
                                                   reportTime, categoryText, env, at).0);
            Get(o, "component") == Some(JArr(ComponentsJson(Components(gene, diplotype, phenotype))))
  {
  }

  /** The keys of an Observation dict: the display's nine, then `specimen`
      when the reference is truthy. */
  lemma ObservationJsonKeys(obsId: string, patientRef: string, specimenRef: Option<string>,
                            gene: string, diplotype: Option<string>, phenotype: Option<string>,
                            reportTime: Option<string>, categoryText: string, env: Env, at: nat)
    ensures var o := ResourceJson(BuildObservation(obsId, patientRef, specimenRef, gene, diplotype, phenotype,
                                                   reportTime, categoryText, env, at).0);
            IsDict(o) && o.keys == ObservationKeys + (if Truthy(specimenRef) then ["specimen"] else [])
  {
    var r := BuildObservation(obsId, patientRef, specimenRef, gene, diplotype, phenotype,
                              reportTime, categoryText, env, at).0;
    ObservationDisplayIsDict(r);
    if r.specimen.Some? {
      SetFieldNew(ObservationDisplay(r), "specimen", Reference(r.specimen.value));
    }
  }

  lemma ObservationDisplayIsDict(r: Resource)
    requires r.Observation?
    ensures IsDict(ObservationDisplay(r)) && ObservationDisplay(r).keys == ObservationKeys
  {
  }
}
