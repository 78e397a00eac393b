/**
 * The watch upsert workflow. Before the watch row is written, its value bag
 * is rewritten: a batch name becomes `batch_id`, a brand name becomes
 * `brand_id` (each looked up by name, the row created when missing), and a
 * default location is filled in. After the upsert, images are handed to the
 * image-sync collaborator when the bag carries them.
 *
 * The batch and brand tables are objects updated in place; the upsert and the
 * image sync, whose code is not part of this model, are recorded as calls.
 */
module UpdateOrCreateAction {
  import opened PhpValues

  /** A value bag: attribute name -> value. */
  type Bag = map<string, Json>

  /** `isset($values[key])`: present and not null. */
  predicate IsSet(values: Bag, key: string) {
    key in values && values[key] != JNull
  }

  /** The contents of a name table (batches or brands): name -> auto-increment id. */
  datatype Table = Table(ids: map<Json, nat>, nextId: nat)

  /** Auto-increment ids: positive, below the next id to hand out, and distinct. */
  ghost predicate ValidTable(t: Table) {
    && 0 < t.nextId
    && (forall n :: n in t.ids ==> 0 < t.ids[n] < t.nextId)
    && (forall a, b :: a in t.ids && b in t.ids && a != b ==> t.ids[a] != t.ids[b])
  }

  /** `firstOrCreate(['name' => name])`: the id of the row with that name,
      inserting a row with a fresh id when there is none. */
  function GetOrCreate(t: Table, name: Json): (r: (Table, nat))
    ensures name in r.0.ids && r.0.ids[name] == r.1
    ensures r.0.ids.Keys == t.ids.Keys + {name}
    ensures forall n :: n in t.ids ==> r.0.ids[n] == t.ids[n]
    ensures name in t.ids ==> r.0 == t
    ensures name !in t.ids ==> |r.0.ids| == |t.ids| + 1
  {
    if name in t.ids then (t, t.ids[name])
    else (Table(t.ids[name := t.nextId], t.nextId + 1), t.nextId)
  }

  /** A created row gets an id no other row has, so the table stays valid. */
  lemma GetOrCreateKeepsValid(t: Table, name: Json)
    requires ValidTable(t)
    ensures name !in t.ids ==> GetOrCreate(t, name).1 !in t.ids.Values
    ensures ValidTable(GetOrCreate(t, name).0)
  {
    if name !in t.ids {
      var t' := GetOrCreate(t, name).0;
      forall a, b | a in t'.ids && b in t'.ids && a != b
        ensures t'.ids[a] != t'.ids[b]
      {
        if a != name && b != name {
          assert t'.ids[a] == t.ids[a] && t'.ids[b] == t.ids[b];
        }
      }
    }
  }

  /** `processBatchId` / `processBrandId` on values: when the name is set,
      its row's id replaces it under idKey; otherwise nothing changes. */
  function ResolveName(values: Bag, t: Table, nameKey: string, idKey: string): (r: (Bag, Table))
    requires nameKey != idKey
    ensures !IsSet(values, nameKey) ==> r == (values, t)
    ensures IsSet(values, nameKey) ==>
      && nameKey !in r.0 && idKey in r.0
      && values[nameKey] in r.1.ids && r.0[idKey] == JInt(r.1.ids[values[nameKey]])
      && r.1 == GetOrCreate(t, values[nameKey]).0
    ensures forall k :: k != nameKey && k != idKey ==> (k in r.0 <==> k in values) && (k in values ==> r.0[k] == values[k])
  {
    if !IsSet(values, nameKey) then (values, t)
    else
      var (t', id) := GetOrCreate(t, values[nameKey]);
      (values[idKey := JInt(id)] - {nameKey}, t')
  }

  /** `setDefaultLocation`: fills `location` with the default country, when
      the bag has none and the constant is defined; a set location stays. */
  function WithDefaultLocation(values: Bag, defaultCountry: Option<Json>): (r: Bag)
    ensures IsSet(values, "location") ==> r == values
    ensures !IsSet(values, "location") && defaultCountry.Some? ==> r == values["location" := defaultCountry.value]
    ensures defaultCountry.None? ==> r == values
  {
    if !IsSet(values, "location") && defaultCountry.Some? then values["location" := defaultCountry.value] else values
  }

  datatype Prepared = Prepared(values: Bag, batches: Table, brands: Table)

  /** The three rewriting steps, in the order the action runs them. */
  function Prepare(values: Bag, batches: Table, brands: Table, defaultCountry: Option<Json>): (r: Prepared)
    ensures r.batches == if IsSet(values, "batch") then GetOrCreate(batches, values["batch"]).0 else batches
    ensures r.brands == if IsSet(values, "brand") then GetOrCreate(brands, values["brand"]).0 else brands
    ensures forall k :: k !in ReservedKeys ==> (k in r.values <==> k in values) && (k in values ==> r.values[k] == values[k])
  {
    var (v1, batches') := ResolveName(values, batches, "batch", "batch_id");
    var (v2, brands') := ResolveName(v1, brands, "brand", "brand_id");
    Prepared(WithDefaultLocation(v2, defaultCountry), batches', brands')
  }

  const ReservedKeys: set<string> := {"batch", "batch_id", "brand", "brand_id", "location"}

  /** Calls the action makes on the outside: the upsert, then the image sync. */
  datatype Call = Upsert(attributes: Bag, values: Bag) | SyncImages(images: Json)

  /** The image sync runs when the bag has images and the collaborator class exists. */
  function SyncCalls(values: Bag, syncActionExists: bool): (r: seq<Call>)
    ensures |r| <= 1
    ensures r != [] <==> IsSet(values, "images") && syncActionExists
  {
    if IsSet(values, "images") && syncActionExists then [SyncImages(values["images"])] else []
  }

  // ---------------------------------------------------------------------
  // The database tables and the action

  /** A name table as the database holds it. */
  class NameTable {
    var ids: map<Json, nat>
    var nextId: nat

    constructor ()
      ensures ids == map[] && nextId == 1 && ValidTable(State())
    {
      ids := map[];
      nextId := 1;
    }

    function State(): Table
      reads this
    {
      Table(ids, nextId)
    }

    /** Inserts a row for a new name; an existing name leaves the table as it is. */
    method FirstOrCreate(name: Json) returns (id: nat)
      modifies this
      ensures (State(), id) == GetOrCreate(old(State()), name)
    {
      if name in ids {
        id := ids[name];
      } else {
        id := nextId;
        ids := ids[name := id];
        nextId := nextId + 1;
      }
    }
  }

  class UpdateOrCreateAction {
    const batches: NameTable
    const brands: NameTable
    /** Upserts and image syncs issued so far, in order. */
    var calls: seq<Call>

    constructor (batches: NameTable, brands: NameTable)
      requires batches != brands
      ensures this.batches == batches && this.brands == brands && calls == []
    {
      this.batches := batches;
      this.brands := brands;
      calls := [];
    }

    method ProcessBatchId(values: Bag) returns (out: Bag)
      modifies batches
      ensures (out, batches.State()) == ResolveName(values, old(batches.State()), "batch", "batch_id")
    {
      out := values;
      if !IsSet(values, "batch") {
        return;
      }
      var id := batches.FirstOrCreate(values["batch"]);
      out := out["batch_id" := JInt(id)];
      out := out - {"batch"};
    }

    method ProcessBrandId(values: Bag) returns (out: Bag)
      modifies brands
      ensures (out, brands.State()) == ResolveName(values, old(brands.State()), "brand", "brand_id")
    {
      out := values;
      if !IsSet(values, "brand") {
        return;
      }
      var id := brands.FirstOrCreate(values["brand"]);
      out := out["brand_id" := JInt(id)];
      out := out - {"brand"};
    }

    /** `__invoke`: rewrite the bag, upsert with it, then sync images.
        `defaultCountry` is `Location::DEFAULT_COUNTRY` when that constant is
        defined; `syncActionExists` is whether the image-sync class exists. */
    method Invoke(attributes: Bag, values: Bag, defaultCountry: Option<Json>, syncActionExists: bool)
      requires batches != brands
      modifies this, batches, brands
      ensures var p := Prepare(values, old(batches.State()), old(brands.State()), defaultCountry);
        && batches.State() == p.batches && brands.State() == p.brands
        && calls == old(calls) + [Upsert(attributes, p.values)] + SyncCalls(p.values, syncActionExists)
    {
      var bag := ProcessBatchId(values);
      bag := ProcessBrandId(bag);
      bag := WithDefaultLocation(bag, defaultCountry);
      calls := calls + [Upsert(attributes, bag)];
      if IsSet(bag, "images") && syncActionExists {
        calls := calls + [SyncImages(bag["images"])];
      }
    }
  }

  // ---------------------------------------------------------------------
  // Properties of the rewriting

  /** A set batch name is replaced by `batch_id`, the id of that name's row. */
  lemma BatchNameBecomesId(values: Bag, batches: Table, brands: Table, defaultCountry: Option<Json>)
    requires IsSet(values, "batch")
    ensures var p := Prepare(values, batches, brands, defaultCountry);
      && "batch" !in p.values && "batch_id" in p.values
      && values["batch"] in p.batches.ids
      && p.values["batch_id"] == JInt(p.batches.ids[values["batch"]])
  {
    var (v1, b1) := ResolveName(values, batches, "batch", "batch_id");
    var (v2, b2) := ResolveName(v1, brands, "brand", "brand_id");
    assert "batch" !in v2 && v2["batch_id"] == v1["batch_id"];
  }

  /** A set brand name is replaced by `brand_id`, the id of that name's row. */
  lemma BrandNameBecomesId(values: Bag, batches: Table, brands: Table, defaultCountry: Option<Json>)
    requires IsSet(values, "brand")
    ensures var p := Prepare(values, batches, brands, defaultCountry);
      && "brand" !in p.values && "brand_id" in p.values
      && values["brand"] in p.brands.ids
      && p.values["brand_id"] == JInt(p.brands.ids[values["brand"]])
  {
    var (v1, b1) := ResolveName(values, batches, "batch", "batch_id");
    assert v1["brand"] == values["brand"];
  }

  /** An unset or null name leaves its table alone, and its key as it was. */
  lemma UnsetNamesTouchNothing(values: Bag, batches: Table, brands: Table, defaultCountry: Option<Json>)
    ensures var p := Prepare(values, batches, brands, defaultCountry);
      && (!IsSet(values, "batch") ==> p.batches == batches && ("batch" in p.values <==> "batch" in values))
      && (!IsSet(values, "brand") ==> p.brands == brands && ("brand" in p.values <==> "brand" in values))
  {
    var (v1, b1) := ResolveName(values, batches, "batch", "batch_id");
    var (v2, b2) := ResolveName(v1, brands, "brand", "brand_id");
    assert Prepare(values, batches, brands, defaultCountry) == Prepared(WithDefaultLocation(v2, defaultCountry), b1, b2);
    assert "brand" in v1 <==> "brand" in values;
    assert IsSet(v1, "brand") <==> IsSet(values, "brand");
    assert "batch" in v2 <==> "batch" in v1;
  }

  /** A set location is never overwritten; an unset one gets the default when there is one. */
  lemma LocationDefaulted(values: Bag, batches: Table, brands: Table, defaultCountry: Option<Json>)
    ensures var p := Prepare(values, batches, brands, defaultCountry);
      && (IsSet(values, "location") ==> p.values["location"] == values["location"])
      && (!IsSet(values, "location") && defaultCountry.Some? ==> p.values["location"] == defaultCountry.value)
      && (defaultCountry.None? ==> ("location" in p.values <==> "location" in values))
  {
    var (v1, b1) := ResolveName(values, batches, "batch", "batch_id");
    var (v2, b2) := ResolveName(v1, brands, "brand", "brand_id");
    assert "location" in v2 <==> "location" in values;
    assert "location" in values ==> v2["location"] == values["location"];
  }

  /** Every key other than the five the rewriting owns passes through unchanged. */
  lemma OtherKeysPassThrough(values: Bag, batches: Table, brands: Table, defaultCountry: Option<Json>)
    ensures var p := Prepare(values, batches, brands, defaultCountry);
      forall k :: k !in ReservedKeys ==> (k in p.values <==> k in values) && (k in values ==> p.values[k] == values[k])
  {
  }

  /** Images reach the sync exactly when the incoming bag has them. */
  lemma ImageSyncFollowsInput(values: Bag, batches: Table, brands: Table, defaultCountry: Option<Json>, syncActionExists: bool)
    ensures var p := Prepare(values, batches, brands, defaultCountry);
      SyncCalls(p.values, syncActionExists) == (if IsSet(values, "images") && syncActionExists then [SyncImages(values["images"])] else [])
  {
    OtherKeysPassThrough(values, batches, brands, defaultCountry);
    assert "images" !in ReservedKeys;
  }

  /** The rewriting keeps both tables valid and adds at most one row to each. */
  lemma TablesStayValid(values: Bag, batches: Table, brands: Table, defaultCountry: Option<Json>)
    requires ValidTable(batches) && ValidTable(brands)
    ensures var p := Prepare(values, batches, brands, defaultCountry);
      && ValidTable(p.batches) && ValidTable(p.brands)
      && batches.ids.Keys <= p.batches.ids.Keys && |p.batches.ids| <= |batches.ids| + 1
      && brands.ids.Keys <= p.brands.ids.Keys && |p.brands.ids| <= |brands.ids| + 1
  {
    if IsSet(values, "batch") {
      GetOrCreateKeepsValid(batches, values["batch"]);
    }
    var (v1, b1) := ResolveName(values, batches, "batch", "batch_id");
    if IsSet(v1, "brand") {
      GetOrCreateKeepsValid(brands, v1["brand"]);
    }
  }

  /** Rewriting an already rewritten bag changes nothing: names are gone,
      ids and location stay, and no table gains a row. */
  lemma PrepareIdempotent(values: Bag, batches: Table, brands: Table, defaultCountry: Option<Json>)
    ensures var p := Prepare(values, batches, brands, defaultCountry);
      Prepare(p.values, p.batches, p.brands, defaultCountry) == p
  {
    var (v1, b1) := ResolveName(values, batches, "batch", "batch_id");
    var (v2, b2) := ResolveName(v1, brands, "brand", "brand_id");
    var v3 := WithDefaultLocation(v2, defaultCountry);
    assert Prepare(values, batches, brands, defaultCountry) == Prepared(v3, b1, b2);
    assert !IsSet(v3, "batch") && !IsSet(v3, "brand");
    NamelessPrepare(v3, b1, b2, defaultCountry);
    DefaultLocationIdempotent(v2, defaultCountry);
  }

  lemma NamelessPrepare(values: Bag, batches: Table, brands: Table, defaultCountry: Option<Json>)
    requires !IsSet(values, "batch") && !IsSet(values, "brand")
    ensures Prepare(values, batches, brands, defaultCountry) == Prepared(WithDefaultLocation(values, defaultCountry), batches, brands)
  {
  }

  lemma DefaultLocationIdempotent(values: Bag, defaultCountry: Option<Json>)
    ensures WithDefaultLocation(WithDefaultLocation(values, defaultCountry), defaultCountry) == WithDefaultLocation(values, defaultCountry)
  {
  }
}
