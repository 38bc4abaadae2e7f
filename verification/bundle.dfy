/** `build_bundle_collection`: wraps each resource in an entry with a
    `fullUrl` derived from its id, filling in a missing id, and puts the
    entries, in input order, into a `collection` Bundle. */
module Bundles {
  import opened JsonValues
  import opened Ids
  import opened Resources

  const UrnUuid := "urn:uuid:"

  /** `{"fullUrl": "urn:uuid:<rid>", "resource": r2}` */
  datatype Entry = Entry(fullUrl: string, resource: Resource)

  /** A Bundle of type `collection`. */
  datatype Bundle = Bundle(id: string, timestamp: string, entry: seq<Entry>)

  /** `r.get("resourceType", "Resource")` */
  function ResourceType(r: Resource): string {
    match r
    case Patient(_, _, _, _) => "Patient"
    case Specimen(_, _, _) => "Specimen"
    case Observation(_, _, _, _, _, _, _, _, _) => "Observation"
    case Other(d) => (match Get(d, "resourceType") case Some(JStr(t)) => t case _ => "Resource")
  }

  /** `r.get("id")` */
  function IdOf(r: Resource): Option<string> {
    match r
    case Patient(id, _, _, _) => Some(id)
    case Specimen(id, _, _) => Some(id)
    case Observation(id, _, _, _, _, _, _, _, _) => Some(id)
    case Other(d) => (match Get(d, "id") case Some(JStr(id)) => Some(id) case _ => None)
  }

  /** `r2 = dict(r); r2["id"] = rid` */
  function WithId(r: Resource, rid: string): Resource {
    match r
    case Patient(_, name, birthDate, gender) => Patient(rid, name, birthDate, gender)
    case Specimen(_, subject, typeText) => Specimen(rid, subject, typeText)
    case Observation(_, status, category, code, subject, effectiveDateTime, issued, component, specimen) =>
      Observation(rid, status, category, code, subject, effectiveDateTime, issued, component, specimen)
    case Other(d) => Other(SetField(d, "id", JStr(rid)))
  }

  /** One iteration of the loop: keep a truthy id, otherwise draw
      `<lowercased resourceType>-<hex>`. */
  function EntryFor(r: Resource, env: Env, at: nat): (e: (Entry, nat))
  {
    var rid := PickId(IdOf(r), Lower(ResourceType(r)), env, at);
    (Entry(UrnUuid + rid.0, WithId(r, rid.0)), rid.1)
  }

  /** How many of `rs` lack a truthy id, i.e. how many ids the loop draws. */
  function MissingIds(rs: seq<Resource>): nat {
    if rs == [] then 0
    else MissingIds(rs[..|rs| - 1]) + (if Truthy(IdOf(rs[|rs| - 1])) then 0 else 1)
  }

  /** No id is drawn when every resource has a truthy one. */
  lemma {:induction false} NoMissingIds(rs: seq<Resource>)
    requires forall k :: 0 <= k < |rs| ==> Truthy(IdOf(rs[k]))
    ensures MissingIds(rs) == 0
  {
    if rs != [] {
      NoMissingIds(rs[..|rs| - 1]);
    }
  }

  /** The entries of the resources `rs`, as the loop appends them. */
  function Entries(rs: seq<Resource>, env: Env, at: nat): (r: (seq<Entry>, nat))
    ensures |r.0| == |rs|
    ensures r.1 == at + MissingIds(rs)
  {
    if rs == [] then ([], at)
    else
      var prev := Entries(rs[..|rs| - 1], env, at);
      var e := EntryFor(rs[|rs| - 1], env, prev.1);
      (prev.0 + [e.0], e.1)
  }

  /** The Bundle `build_bundle_collection` returns, and the next draw: the
      bundle id is drawn first (if none is supplied), then the entries' ids,
      then the clock. */
  function CollectionBundle(resources: seq<Resource>, bundleId: Option<string>, env: Env, at: nat): (r: (Bundle, nat))
  {
    var bid := PickId(bundleId, "bundle", env, at);
    var es := Entries(resources, env, bid.1);
    (Bundle(bid.0, env.clock(es.1), es.0), es.1 + 1)
  }

  /** The loop of `build_bundle_collection`: one entry per resource, in
      order, drawing an id for each resource without a truthy one. */
  method AssembleEntries(resources: seq<Resource>, env: Env, at: nat) returns (entries: seq<Entry>, next: nat)
    ensures (entries, next) == Entries(resources, env, at)
  {
    entries, next := [], at;
    for i := 0 to |resources|
      invariant (entries, next) == Entries(resources[..i], env, at)
    {
      var r := resources[i];
      var rtype := ResourceType(r);
      var rid := PickId(IdOf(r), Lower(rtype), env, next);
      entries := entries + [Entry(UrnUuid + rid.0, WithId(r, rid.0))];
      next := rid.1;
      assert resources[..i + 1][..i] == resources[..i];
    }
    assert resources[..|resources|] == resources;
  }

  /** `build_bundle_collection`. */
  method BuildBundleCollection(resources: seq<Resource>, bundleId: Option<string>, env: Env, at: nat)
    returns (bundle: Bundle, next: nat)
    ensures (bundle, next) == CollectionBundle(resources, bundleId, env, at)
  {
    var bid := PickId(bundleId, "bundle", env, at);
    var entries;
    entries, next := AssembleEntries(resources, env, bid.1);
    bundle := Bundle(bid.0, env.clock(next), entries);
    next := next + 1;
  }

  // ---- What the assembler promises ----

  /** Entry `e` wraps resource `r` as the assembler promises: its resource
      is `r` with its id set to a non-empty `rid`, which is `r`'s own id
      when truthy and otherwise `<lowercased resourceType>-<12 hex>`, and its
      `fullUrl` is "urn:uuid:" + `rid`. */
  predicate WrapsResource(r: Resource, e: Entry) {
    && IdOf(e.resource).Some?
    && var rid := IdOf(e.resource).value;
    && rid != ""
    && e.resource == WithId(r, rid)
    && e.fullUrl == UrnUuid + rid
    && (Truthy(IdOf(r)) ==> rid == IdOf(r).value)
    && (!Truthy(IdOf(r)) ==> IsGeneratedId(rid, Lower(ResourceType(r))))
  }

  /** One loop iteration builds an entry that wraps its resource. */
  lemma EntryForWraps(r: Resource, env: Env, at: nat)
    ensures WrapsResource(r, EntryFor(r, env, at).0)
    ensures EntryFor(r, env, at).1 == if Truthy(IdOf(r)) then at else at + 1
  {
    var rid := PickId(IdOf(r), Lower(ResourceType(r)), env, at);
    WithIdFields(r, rid.0);
  }

  /** Entry count equals resource count, order is kept, and each entry
      wraps the resource at the same position. */
  lemma {:induction false} EntriesWrap(rs: seq<Resource>, env: Env, at: nat)
    ensures forall i :: 0 <= i < |rs| ==> WrapsResource(rs[i], Entries(rs, env, at).0[i])
  {
    if rs != [] {
      var init := rs[..|rs| - 1];
      EntriesWrap(init, env, at);
      var prev := Entries(init, env, at);
      EntryForWraps(rs[|rs| - 1], env, prev.1);
      forall i | 0 <= i < |rs|
        ensures WrapsResource(rs[i], Entries(rs, env, at).0[i])
      {
        if i < |rs| - 1 {
          assert rs[i] == init[i];
        }
      }
    }
  }

  /** What `build_bundle_collection` promises about a bundle `b` built
      from `resources` with draws starting at `at` and ending before
      `next`: its id is the supplied one when truthy and otherwise
      `bundle-<hex>`, it is stamped with the clock at its last draw, and it
      has one entry per resource, in order, each wrapping its resource. */
  predicate IsCollection(b: Bundle, resources: seq<Resource>, bundleId: Option<string>, env: Env, at: nat, next: nat) {
    && next == at + (if Truthy(bundleId) then 0 else 1) + MissingIds(resources) + 1
    && b.timestamp == env.clock(next - 1)
    && (Truthy(bundleId) ==> b.id == bundleId.value)
    && (!Truthy(bundleId) ==> IsGeneratedId(b.id, "bundle"))
    && |b.entry| == |resources|
    && forall i :: 0 <= i < |resources| ==> WrapsResource(resources[i], b.entry[i])
  }

  /** The specification function meets what the assembler promises. */
  lemma CollectionShape(resources: seq<Resource>, bundleId: Option<string>, env: Env, at: nat)
    ensures var r := CollectionBundle(resources, bundleId, env, at);
            IsCollection(r.0, resources, bundleId, env, at, r.1)
  {
    var bid := PickId(bundleId, "bundle", env, at);
    EntriesWrap(resources, env, bid.1);
  }

  /** A resource that already has a truthy id reaches its entry unchanged,
      under `urn:uuid:` + that id. */
  lemma EntryKeepsResource(r: Resource, e: Entry)
    requires WrapsResource(r, e)
    requires !r.Other? && Truthy(IdOf(r))
    ensures e.resource == r
    ensures e.fullUrl == UrnUuid + r.id
  {
  }

  /** When every resource is a built record with a truthy id, the bundle
      carries each resource unchanged and draws only the bundle id (if not
      supplied) and the clock. */
  lemma {:induction false} CollectionKeepsResources(b: Bundle, resources: seq<Resource>, bundleId: Option<string>,
                                                    env: Env, at: nat, next: nat)
    requires IsCollection(b, resources, bundleId, env, at, next)
    requires forall k :: 0 <= k < |resources| ==> !resources[k].Other? && Truthy(IdOf(resources[k]))
    ensures next == at + (if Truthy(bundleId) then 0 else 1) + 1
    ensures forall k :: 0 <= k < |resources| ==>
              b.entry[k].resource == resources[k] && b.entry[k].fullUrl == UrnUuid + resources[k].id
  {
    NoMissingIds(resources);
    forall k | 0 <= k < |resources|
      ensures b.entry[k].resource == resources[k] && b.entry[k].fullUrl == UrnUuid + resources[k].id
    {
      EntryKeepsResource(resources[k], b.entry[k]);
    }
  }

  // ---- The copy `dict(r)` with the id set ----

  /** Setting a key that is already present commutes with a conditional
      insertion of another key. */
  lemma SetIfPresentSwap(o: Obj, k1: string, v1: Json, k2: string, v2: Option<Json>)
    requires k1 in o.keys && k1 != k2
    ensures SetIfPresent(SetField(o, k1, v1), k2, v2) == SetField(SetIfPresent(o, k2, v2), k1, v1)
    ensures k1 in SetIfPresent(o, k2, v2).keys
  {
    WithKeySpec(o.keys, k1);
    WithKeySpec(o.keys, k2);
    var keys2 := WithKey(o.keys, k2);
    assert k1 in keys2;
    WithKeySpec(keys2, k1);
    if v2.Some? {
      assert o.values[k1 := v1][k2 := v2.value] == o.values[k2 := v2.value][k1 := v1];
    }
  }

  /** The entry's resource is the source's copy of `r` with "id" set:
      for every resource, rendering `WithId(r, rid)` gives the dict of `r`
      with `"id"` assigned `rid`, every other key and the key order
      unchanged. */
  lemma WithIdIsCopy(r: Resource, rid: string)
    ensures ResourceJson(WithId(r, rid)) == SetField(ResourceJson(r), "id", JStr(rid))
  {
    match r
    case Patient(id, name, birthDate, gender) =>
      PatientWithIdIsCopy(id, name, birthDate, gender, rid);
    case Specimen(id, subject, typeText) =>
      SpecimenWithIdIsCopy(id, subject, typeText, rid);
    case Observation(_, _, _, _, _, _, _, _, specimen) =>
      ObservationWithIdIsCopy(r, rid);
    case Other(_) =>
  }

  lemma SpecimenWithIdIsCopy(id: string, subject: string, typeText: string, rid: string)
    ensures ResourceJson(Specimen(rid, subject, typeText))
            == SetField(ResourceJson(Specimen(id, subject, typeText)), "id", JStr(rid))
  {
  }

  lemma ObservationWithIdIsCopy(r: Resource, rid: string)
    requires r.Observation?
    ensures ResourceJson(WithId(r, rid)) == SetField(ResourceJson(r), "id", JStr(rid))
  {
    assert ObservationDisplay(WithId(r, rid)) == SetField(ObservationDisplay(r), "id", JStr(rid));
    SetIfPresentSwap(ObservationDisplay(r), "id", JStr(rid), "specimen",
                     if r.specimen.Some? then Some(Reference(r.specimen.value)) else None);
  }

  lemma PatientWithIdIsCopy(id: string, name: Option<HumanName>, birthDate: Option<string>,
                            gender: Option<string>, rid: string)
    ensures ResourceJson(Patient(rid, name, birthDate, gender))
            == SetField(ResourceJson(Patient(id, name, birthDate, gender)), "id", JStr(rid))
  {
    var v := JStr(rid);
    var d0 := PatientDisplay(id);
    assert PatientDisplay(rid) == SetField(d0, "id", v);
    SetIfPresentSwap(d0, "id", v, "name", NameValue(name));
    var d1 := SetIfPresent(d0, "name", NameValue(name));
    SetIfPresentSwap(d1, "id", v, "birthDate", StrValue(birthDate));
    var d2 := SetIfPresent(d1, "birthDate", StrValue(birthDate));
    SetIfPresentSwap(d2, "id", v, "gender", StrValue(gender));
  }

  /** The copy keeps the resource type; the entry's resource has id `rid`. */
  lemma WithIdFields(r: Resource, rid: string)
    ensures ResourceType(WithId(r, rid)) == ResourceType(r)
    ensures IdOf(WithId(r, rid)) == Some(rid)
  {
    if r.Other? {
      SetFieldSpec(r.dict, "id", JStr(rid));
    }
  }

  // ---- Rendering ----

  function EntryJson(e: Entry): Json {
    JObj(Obj(["fullUrl", "resource"], map["fullUrl" := JStr(e.fullUrl), "resource" := JObj(ResourceJson(e.resource))]))
  }

  function EntriesJson(es: seq<Entry>): (js: seq<Json>)
    ensures |js| == |es|
    ensures forall i :: 0 <= i < |es| ==> js[i] == EntryJson(es[i])
  {
    seq(|es|, i requires 0 <= i < |es| => EntryJson(es[i]))
  }

  /** A built resource's dict holds its id under `"id"`. */
  lemma ResourceJsonId(r: Resource)
    requires !r.Other?
    ensures Get(ResourceJson(r), "id") == Some(JStr(IdOf(r).value))
  {
  }

  /** An entry's dict holds its `fullUrl` and the dict of its resource. */
  lemma EntryJsonFields(e: Entry)
    ensures EntryJson(e).JObj?
    ensures Get(EntryJson(e).obj, "fullUrl") == Some(JStr(e.fullUrl))
    ensures Get(EntryJson(e).obj, "resource") == Some(JObj(ResourceJson(e.resource)))
  {
  }

  /** The Bundle dict, in the display's key order. */
  function BundleJson(b: Bundle): Obj {
    Obj(["resourceType", "id", "type", "timestamp", "entry"],
        map["resourceType" := JStr("Bundle"), "id" := JStr(b.id), "type" := JStr("collection"),
            "timestamp" := JStr(b.timestamp), "entry" := JArr(EntriesJson(b.entry))])
  }

  /** A Bundle dict has exactly these five keys, in this order, and a
      `collection` type. */
  lemma BundleJsonFields(b: Bundle)
    ensures var j := BundleJson(b);
            && IsDict(j) && j.keys == ["resourceType", "id", "type", "timestamp", "entry"]
            && Get(j, "resourceType") == Some(JStr("Bundle"))
            && Get(j, "type") == Some(JStr("collection"))
            && Get(j, "id") == Some(JStr(b.id))
            && Get(j, "timestamp") == Some(JStr(b.timestamp))
            && Get(j, "entry") == Some(JArr(EntriesJson(b.entry)))
  {
  }
}
