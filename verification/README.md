# pgx-fhir: the FHIR document builders, modelled in Dafny

This project models the core of `pgx_fhir.fhir`, the module that turns
pharmacogenomic (PGx) results into a minimal FHIR `collection` Bundle:

- `_new_id` and `_now_iso`: identifier and timestamp draws;
- `build_patient`, `build_specimen` and `build_observation_pgx`: the three
  resource builders;
- `build_bundle_collection`: wraps resources in entries with a
  `urn:uuid:` `fullUrl`, fills in missing ids, and stamps the Bundle;
- `MinimalPgxRecord` and `build_pgx_bundle_minimal`: one Patient, one
  Specimen and one Observation per result, all cross-referenced;
- `build_bundle_from_pgx_input` with its `_get` helper: resolves fields of
  an input model by trying ordered lists of attribute names.

Modules, one per file:

| file | module | models |
|---|---|---|
| `json_values.dfy` | `JsonValues` | JSON values; a dict as keys in insertion order plus a table; Python truthiness and `x or d` on optional strings |
| `ids.dfy` | `Ids` | `_new_id` shapes; the `supplied or _new_id(prefix)` idiom |
| `resources.dfy` | `Resources` | the three builders as typed records, and their rendering as dicts |
| `bundle.dfy` | `Bundles` | `build_bundle_collection`: its loop and its promises |
| `pgx_bundle.dfy` | `PgxBundle` | `build_pgx_bundle_minimal` and its reference integrity |
| `adapter.dfy` | `Adapter` | `_get` and `build_bundle_from_pgx_input` |

Randomness and the clock are parameters. An `Env` holds two functions from
draw numbers: `hex` gives the 12 lower-case hex digits of a `uuid4` and
`clock` gives an ISO timestamp. Every call to `_new_id` or `_now_iso` is
one draw. Operations take the number of the next draw and return the
number after their last one. The order of draws is therefore part of each
contract. For example, `build_pgx_bundle_minimal` draws, in order: the
patient id and the specimen id (each only when not supplied), an id and a
timestamp per result, then the bundle id and the bundle timestamp.

A resource is a typed record (`Resources.Resource`) with one field per key
of the dict its builder returns. An optional key is an `Option` field.
`Resources.ResourceJson` renders a record as the dict, with keys in the
builder's insertion order. `build_bundle_collection` also accepts dicts the
builders did not make (`Resource.Other`).

Each loop of the source is a method proved equal to a specification
function:

- `Adapter.GetAttr` against `Adapter.Resolve`;
- `Adapter.MapResultsLoop` against `Adapter.MapResults`;
- `Bundles.AssembleEntries` against `Bundles.Entries`;
- `PgxBundle.BuildObservations` against `PgxBundle.Observations`.

The promises are then proved about those functions. The three top-level
operations are methods proved equal to `Bundles.CollectionBundle`,
`PgxBundle.MinimalBundle` and `Adapter.FromPgxInput`.

Three behaviours of the code that a reader might not expect, which the
model reproduces:

- A result without a gene raises `ValueError` with the fixed message
  `Result record missing gene (tried: gene/gen).`. The message names no
  result index.
- Only a gene that resolves to `None` is an error. A gene of `""` passes
  through into a component with an empty value.
- The patient id is looked up under `id`, then `patient_id`.

The adapter's name candidates do not include `given_name` or `family_name`.
Those are the attribute names of the repository's own input model
(`src/pgx_fhir/models.py:11-16`). A patient of that model therefore always
gets a Patient without `name` (`Adapter.ModelNamesMissed`,
`Adapter.ModelPatientHasNoName`).

## Model

| member | source | states |
|---|---|---|
| JsonValues.SetFieldSpec | src/pgx_fhir/fhir.py:131-132 | dict assignment: the key holds the new value, no other key changes, a well-formed dict stays well formed, and the key keeps its position or is appended last |
| JsonValues.SetFieldExisting | src/pgx_fhir/fhir.py:131-132 | assigning a key a dict already holds keeps the key order |
| JsonValues.SetFieldNew | src/pgx_fhir/fhir.py:39-49 | inserting a new key into a dict appends it at the end |
| JsonValues.SetIfPresentKeys | src/pgx_fhir/fhir.py:45-49 | an `if x: d[k] = x` on a new key appends `k` exactly when the value is present |
| JsonValues.LowerSpec | src/pgx_fhir/fhir.py:128 | `lower()` keeps the length, leaves no upper-case ASCII letter, keeps every other character, and is idempotent |
| JsonValues.LowerResourceTypes | src/pgx_fhir/fhir.py:127-128 | the types `Patient`, `Specimen`, `Observation` and the fallback `Resource` lower-case to `patient`, `specimen`, `observation` and `resource` |
| Ids.NewId | src/pgx_fhir/fhir.py:11-12 | a generated id is `<prefix>-` followed by 12 lower-case hex digits |
| Ids.PickId | src/pgx_fhir/fhir.py:174-175 | `supplied or _new_id(prefix)`: a truthy supplied id is kept and draws nothing; otherwise one generated id is drawn; the result is never empty |
| Ids.GeneratedIdsDiffer | src/pgx_fhir/fhir.py:11-12 | ids generated under different prefixes differ, whatever their random parts |
| Resources.BuildPatient | src/pgx_fhir/fhir.py:19-51 | the Patient has the given id; `name` is present iff `given` or `family` is truthy; `birthDate` and `gender` are present iff their inputs are truthy, and then equal them |
| Resources.BuildSpecimen | src/pgx_fhir/fhir.py:54-68 | the Specimen has the given id and the given subject reference |
| Resources.Components | src/pgx_fhir/fhir.py:98-110 | the component list has the gene first, then the diplotype and then the phenotype, each only when truthy; its length is one plus the number of truthy extras |
| Resources.BuildObservation | src/pgx_fhir/fhir.py:71-112 | `issued` and `effectiveDateTime` are the same timestamp: the report time when truthy, otherwise the clock, which is read (one draw) only then |
| Resources.ComponentsJsonFields | src/pgx_fhir/fhir.py:98-110 | each rendered component, in order, is a well-formed dict with exactly the keys `code` and `valueString`, holding `{"text": name}` and the value |
| Resources.NameJsonFields | src/pgx_fhir/fhir.py:37-41 | `name_parts` holds `family` iff it is truthy and `given` (as a one-item list) iff it is truthy |
| Resources.PatientJsonFields | src/pgx_fhir/fhir.py:32-49 | a Patient dict holds its type and id, and holds `name`, `birthDate` and `gender` exactly when their inputs are truthy; `name` is then the one-item list holding `name_parts` |
| Resources.PatientJsonKeys | src/pgx_fhir/fhir.py:32-49 | a Patient dict's keys are `resourceType`, `id`, then `name`, `birthDate` and `gender` in that order, each exactly when its input is truthy |
| Resources.PatientRecordKeys | src/pgx_fhir/fhir.py:42-49 | any Patient record renders with the two display keys, then each present optional field in insertion order |
| Resources.SpecimenJsonExact | src/pgx_fhir/fhir.py:63-68 | a Specimen dict is well formed with exactly the keys `resourceType`, `id`, `subject`, `type`, in order, holding the builder's values |
| Resources.ObservationJsonFixed | src/pgx_fhir/fhir.py:89-95 | every Observation dict has type `Observation`, status `final`, code text `Pharmacogenomics result` and the category text |
| Resources.ObservationJsonLinks | src/pgx_fhir/fhir.py:87-104 | an Observation dict carries its id, its subject reference and equal `issued`/`effectiveDateTime`, and a `specimen` reference exactly when the specimen reference is truthy |
| Resources.ObservationJsonComponents | src/pgx_fhir/fhir.py:98-110 | an Observation dict's `component` list is the rendering of the gene/diplotype/phenotype components in order |
| Resources.ObservationJsonKeys | src/pgx_fhir/fhir.py:89-104 | an Observation dict is well formed; its keys are the display's nine, then `specimen` exactly when the reference is truthy |
| Resources.ObservationDisplayIsDict | src/pgx_fhir/fhir.py:89-101 | the Observation display is a well-formed dict with the nine keys in order |
| Bundles.NoMissingIds | src/pgx_fhir/fhir.py:128 | when every resource has a truthy id, the loop draws no id |
| Bundles.Entries | src/pgx_fhir/fhir.py:126-139 | the loop yields one entry per resource and draws one id per resource without a truthy id |
| Bundles.AssembleEntries | src/pgx_fhir/fhir.py:124-139 | the loop builds exactly the entries of the specification function and ends at its draw |
| Bundles.BuildBundleCollection | src/pgx_fhir/fhir.py:115-147 | the method returns exactly `CollectionBundle`: the bundle id is drawn first, then the entry ids, then the timestamp |
| Bundles.EntryForWraps | src/pgx_fhir/fhir.py:127-139 | one iteration's entry holds a copy of the resource with a non-empty id: the truthy own id kept, otherwise `<lowercased resourceType>-<hex>`; `fullUrl` is `urn:uuid:` + that id; the iteration draws only when the id is missing |
| Bundles.EntriesWrap | src/pgx_fhir/fhir.py:126-139 | entry `i` wraps resource `i`, for every position: order and count are kept |
| Bundles.CollectionShape | src/pgx_fhir/fhir.py:115-147 | the bundle id is the supplied one when truthy, otherwise `bundle-<hex>`; the timestamp is the last draw; one entry per resource, in order, each wrapping its resource |
| Bundles.EntryKeepsResource | src/pgx_fhir/fhir.py:128-137 | a built resource with a truthy id reaches its entry unchanged, under `urn:uuid:` + its id |
| Bundles.CollectionKeepsResources | src/pgx_fhir/fhir.py:123-147 | when every resource is built with a truthy id, each entry holds its resource unchanged, and only the bundle id and the clock are drawn |
| Bundles.SetIfPresentSwap | src/pgx_fhir/fhir.py:131-132 | setting an existing key commutes with the conditional insertion of another key |
| Bundles.WithIdIsCopy | src/pgx_fhir/fhir.py:131-132 | the entry's resource renders as the input's dict with `id` assigned: other keys, their values and the key order unchanged |
| Bundles.PatientWithIdIsCopy | src/pgx_fhir/fhir.py:131-132 | as `WithIdIsCopy`, for a Patient |
| Bundles.SpecimenWithIdIsCopy | src/pgx_fhir/fhir.py:131-132 | as `WithIdIsCopy`, for a Specimen |
| Bundles.ObservationWithIdIsCopy | src/pgx_fhir/fhir.py:131-132 | as `WithIdIsCopy`, for an Observation |
| Bundles.WithIdFields | src/pgx_fhir/fhir.py:127-132 | the copy keeps the resource type and has id `rid` |
| Bundles.ResourceJsonId | src/pgx_fhir/fhir.py:32-104 | the dict of every built Patient, Specimen or Observation holds its id under `id` |
| Bundles.EntryJsonFields | src/pgx_fhir/fhir.py:134-139 | an entry dict holds its `fullUrl` and the dict of its resource |
| Bundles.BundleJsonFields | src/pgx_fhir/fhir.py:141-147 | a Bundle dict has exactly the keys `resourceType`, `id`, `type`, `timestamp`, `entry`, in order, with type `collection` |
| PgxBundle.ObservationFor | src/pgx_fhir/fhir.py:196-205 | result `i`'s Observation has a generated `observation-` id, references the patient and the specimen, is stamped by the draw after its id, and carries the result's components |
| PgxBundle.Observations | src/pgx_fhir/fhir.py:194-206 | one Observation per result |
| PgxBundle.ObservationsAt | src/pgx_fhir/fhir.py:194-206 | Observation `i` is built from result `i` with draws `d + 2i` and `d + 2i + 1` |
| PgxBundle.ObservationsHaveIds | src/pgx_fhir/fhir.py:196 | every loop Observation has a non-empty id |
| PgxBundle.BuildObservations | src/pgx_fhir/fhir.py:194-206 | the loop builds exactly the specification's Observations and makes two draws per result |
| PgxBundle.PatientIdOf | src/pgx_fhir/fhir.py:174 | the patient id is the supplied one when truthy, otherwise `patient-<hex>` from the first draw |
| PgxBundle.SpecimenIdOf | src/pgx_fhir/fhir.py:175 | the specimen id is the supplied one when truthy, otherwise `specimen-<hex>` from the draw after the patient id (the first draw when the patient id is supplied) |
| PgxBundle.BuildPgxBundleMinimal | src/pgx_fhir/fhir.py:157-208 | the method returns exactly `MinimalBundle` |
| PgxBundle.AssembleBuilt | src/pgx_fhir/fhir.py:208 | assembling `[patient, specimen, *observations]` wraps each unchanged, in order, and draws only the bundle id and timestamp |
| PgxBundle.AssembledMinimal | src/pgx_fhir/fhir.py:177-208 | given the two ids, the entries are the Patient, the Specimen and the Observations as built, each under `urn:uuid:` + its id |
| PgxBundle.MinimalBundleEntries | src/pgx_fhir/fhir.py:174-208 | the bundle has `2 + n` entries: the Patient, the Specimen referencing it, then the Observation of each result in order; the bundle id and timestamp are the last two draws |
| PgxBundle.MinimalBundlePatient | src/pgx_fhir/fhir.py:180-186 | the first entry is the Patient built from the chosen id and the given fields |
| PgxBundle.MinimalEntriesIntegrity | src/pgx_fhir/fhir.py:177-206 | those entries have reference integrity (see `MinimalBundleIntegrity`) |
| PgxBundle.MinimalBundleIntegrity | src/pgx_fhir/fhir.py:157-208 | Patient first with id `pid`, Specimen second with id `sid` and subject `Patient/<pid>`, then one final Observation per result with a generated id, subject `Patient/<pid>`, specimen `Specimen/<sid>` and the result's components; every `fullUrl` is `urn:uuid:` + the id of its resource |
| PgxBundle.MinimalBundleSuppliedIds | src/pgx_fhir/fhir.py:174-175 | choosing the ids beforehand with the same draws and passing them in gives the same bundle and the same next draw |
| PgxBundle.GeneratedIdsDistinct | src/pgx_fhir/fhir.py:174-175 | when neither id is supplied, the generated patient and specimen ids differ |
| PgxBundle.MinimalBundleJsonUrls | src/pgx_fhir/fhir.py:128-137 | in the rendered bundle, every entry's `fullUrl` is `urn:uuid:` followed by the `id` its resource dict holds |
| PgxBundle.TwoResultExample | tests/test_fhir_minimal_bundle.py:17-58 | with ids `P1`/`S1` and the two CYP results, the bundle has the four entries and the references the repository's test expects |
| Adapter.ResolveFirstHit | src/pgx_fhir/fhir.py:220-226 | `_get` gives `None` iff no candidate is present with a non-`None` value; otherwise the first such candidate's value |
| Adapter.GetAttr | src/pgx_fhir/fhir.py:220-226 | the scanning loop returns exactly `Resolve` |
| Adapter.MapResultsSpec | src/pgx_fhir/fhir.py:246-260 | the results loop fails iff some result has neither `gene` nor `gen`, always with the fixed message; otherwise it maps every result, in order, to its gene, diplotype and phenotype |
| Adapter.MapResultsLoop | src/pgx_fhir/fhir.py:245-260 | the loop, stopping at the first result without a gene, returns exactly `MapResults` |
| Adapter.MapResultsStopsAtError | src/pgx_fhir/fhir.py:251-252 | once a prefix of the results fails, the whole list fails with the same error |
| Adapter.BuildBundleFromPgxInput | src/pgx_fhir/fhir.py:211-271 | the adapter returns exactly `FromPgxInput`: ids resolved (or drawn) first, then passed on as given to the minimal builder |
| Adapter.FromPgxInputOutcome | src/pgx_fhir/fhir.py:232-271 | the adapter fails exactly when a result has no gene, with the fixed message; otherwise its bundle has the minimal bundle's integrity for the resolved ids |
| Adapter.ModelNamesMissed | src/pgx_fhir/fhir.py:232-239 | a patient with the input model's attributes has its id, birth date and sex found, but its given and family names are not |
| Adapter.ModelPatientHasNoName | src/pgx_fhir/fhir.py:236-237 | without any given-name or family-name candidate, the bundle's Patient carries no `name` |

## Left out

- `_now_iso` and `uuid4` are not computed. Their values come from the `Env` parameter. The timestamp format is not modelled, and generated ids are not assumed unique: two draws may give the same hex.
- `Ids.GeneratedIdsDiffer` covers ids under different prefixes only. Two ids under the same prefix are distinct only if `uuid4` is, which the model does not assume.
- `JsonValues.Lower` lower-cases ASCII letters only. Python's `str.lower()` also maps non-ASCII letters.
- `Bundles.IdOf` treats a non-string `id` in a dict the assembler receives as missing. Python would keep a truthy non-string id, such as a number, and put its text in `fullUrl`.
- `Bundles.ResourceType` gives `Resource` for a non-string `resourceType`. When such a resource also has no truthy `id`, Python's `lower()` would raise on it. With a truthy `id`, `lower()` is never called (src/pgx_fhir/fhir.py:128).
- JSON numbers, booleans and `null` are not modelled, because the builders never produce them. Serialisation to JSON text is also out.
- Adapter inputs are seen as the strings `str()` gives, in `Adapter.Record`. A falsy non-string attribute (`0`, `False`, an empty list) is a different value in Python before `str()`. The model does not distinguish it.
- Exceptions other than the missing-gene `ValueError` are out, for example an input object without `patient`, `specimen` or `results`. So are the id draws made before that error is raised: the error result carries no draw count.
- `build_observation_pgx` builds its dict and then extends `component` and adds `specimen` in place. The model builds the final value directly. Since the dict is fresh and not shared, nothing observable is lost.
- `build_bundle_collection` copies each input dict (`dict(r)`) and leaves the caller's dict alone. Values in the model cannot alias, so that promise holds by construction and is not stated separately. The copy is shallow: in Python the entry's resource still shares its nested lists and dicts (`name`, `component`, `subject`, `category`) with the caller's dict. That sharing is not modelled, so a later in-place change to one of them, visible through both, is outside this model.
- Pydantic validation of the input models (`models.py`), the synthetic data generator (`synth.py`) and the command line (`cli.py`) are not part of this model.
