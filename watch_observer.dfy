/**
 * The lifecycle hooks the observer runs on a watch. Creating stamps the
 * owner and derives a SKU; updating stamps the last editor and re-derives
 * the SKU when the name, the brand reference or the loaded brand's name
 * changed; deleting removes every image's file from the public disk and
 * every image row.
 *
 * The signed-in user is an optional id, the SKU generator is a function
 * parameter, and the public disk and the image table are objects holding a
 * set of paths and a set of row ids.
 */
module WatchObserver {
  import opened PhpValues
  import opened WatchModel

  /** What `generateSKU` is given as the brand: a name (or other scalar),
      or, when the brand row's name is null, the brand row itself. */
  datatype SkuBrand = BrandText(text: Json) | BrandObject(brand: Brand)

  /** `generateSKU(brand, name, Watch::class)`; its uniqueness logic is not part of this model. */
  type SkuGenerator = (SkuBrand, Json) -> Json

  /** What `$watch->brand` yields: a raw `brand` attribute wins over the
      relation, which gives the row `brand_id` points to, or null. */
  datatype BrandRead = Attribute(value: Json) | Related(row: Option<Brand>)

  function ReadBrand(w: WatchState): (r: BrandRead)
    ensures r.Attribute? <==> "brand" in w.attributes
  {
    if "brand" in w.attributes then Attribute(w.attributes["brand"]) else Related(w.brand)
  }

  /** Reading `$watch->brand` through the relation loads it. */
  function AfterBrandRead(w: WatchState): (r: WatchState)
    ensures r.attributes == w.attributes && r.original == w.original && r.brand == w.brand && r.images == w.images
    ensures r.brandLoaded == (w.brandLoaded || "brand" !in w.attributes)
  {
    if "brand" in w.attributes then w else w.(brandLoaded := true)
  }

  /** PHP truthiness of `$watch->brand`: a model object is always truthy. */
  predicate BrandTruthy(b: BrandRead) {
    match b
    case Attribute(v) => !Empty(v)
    case Related(row) => row.Some?
  }

  // ---------------------------------------------------------------------
  // creating

  /** `setUserId`. */
  function SetUserId(w: WatchState, auth: Option<nat>): (r: WatchState)
    ensures Empty(Attr(w, "user_id")) && auth.Some? ==> r == SetAttr(w, "user_id", JInt(auth.value))
    ensures !Empty(Attr(w, "user_id")) || auth.None? ==> r == w
  {
    if Empty(Attr(w, "user_id")) && auth.Some? then SetAttr(w, "user_id", JInt(auth.value)) else w
  }

  /** Whether `generateSkuIfNeeded` calls the generator. */
  predicate SkuWanted(w: WatchState) {
    Empty(Attr(w, "sku")) && !Empty(Attr(w, "name")) && BrandTruthy(ReadBrand(w))
  }

  /** `$watch->brand?->name ?? $watch->brand`, for a truthy brand. */
  function CreatingBrandArgument(b: BrandRead): (r: SkuBrand)
    requires BrandTruthy(b)
    ensures b.Attribute? ==> r == BrandText(b.value)
    ensures b.Related? && b.row.value.name != JNull ==> r == BrandText(b.row.value.name)
    ensures b.Related? && b.row.value.name == JNull ==> r == BrandObject(b.row.value)
  {
    match b
    case Attribute(v) => BrandText(v)
    case Related(row) => if row.value.name != JNull then BrandText(row.value.name) else BrandObject(row.value)
  }

  /** `generateSkuIfNeeded`. The brand is read only when the SKU is empty
      and the name truthy (PHP's `&&` short-circuits). */
  function GenerateSkuIfNeeded(w: WatchState, generate: SkuGenerator): (r: WatchState)
    ensures SkuWanted(w) ==>
      r.attributes == w.attributes["sku" := generate(CreatingBrandArgument(ReadBrand(w)), Attr(w, "name"))]
    ensures !SkuWanted(w) ==> r.attributes == w.attributes
    ensures r.original == w.original && r.brand == w.brand && r.images == w.images
    ensures r.brandLoaded == (w.brandLoaded || (Empty(Attr(w, "sku")) && !Empty(Attr(w, "name")) && "brand" !in w.attributes))
  {
    if !Empty(Attr(w, "sku")) || Empty(Attr(w, "name")) then w
    else
      var b := ReadBrand(w);
      var w1 := AfterBrandRead(w);
      if !BrandTruthy(b) then w1
      else SetAttr(w1, "sku", generate(CreatingBrandArgument(b), Attr(w, "name")))
  }

  /** The `creating` hook. */
  function Creating(w: WatchState, auth: Option<nat>, generate: SkuGenerator): (r: WatchState)
    ensures Empty(Attr(w, "user_id")) && auth.Some? ==> Attr(r, "user_id") == JInt(auth.value)
    ensures !Empty(Attr(w, "user_id")) || auth.None? ==> Attr(r, "user_id") == Attr(w, "user_id")
    ensures SkuWanted(w) ==> Attr(r, "sku") == generate(CreatingBrandArgument(ReadBrand(w)), Attr(w, "name"))
    ensures !SkuWanted(w) ==> Attr(r, "sku") == Attr(w, "sku")
    ensures forall k :: k != "user_id" && k != "sku" ==> Attr(r, k) == Attr(w, k)
  {
    var w1 := SetUserId(w, auth);
    assert Attr(w1, "sku") == Attr(w, "sku") && Attr(w1, "name") == Attr(w, "name");
    assert ReadBrand(w1) == ReadBrand(w);
    GenerateSkuIfNeeded(w1, generate)
  }

  /** On create, the owner is the signed-in user exactly when none is set
      and someone is signed in; otherwise the owner stays as it was. */
  lemma CreatingStampsOwner(w: WatchState, auth: Option<nat>, generate: SkuGenerator)
    ensures var r := Creating(w, auth, generate);
      && (Empty(Attr(w, "user_id")) && auth.Some? ==> Attr(r, "user_id") == JInt(auth.value))
      && (!Empty(Attr(w, "user_id")) || auth.None? ==> Attr(r, "user_id") == Attr(w, "user_id"))
  {
  }

  /** On create, the SKU is generated exactly when it is empty and both the
      name and the brand are truthy; a set SKU is never replaced. */
  lemma CreatingSku(w: WatchState, auth: Option<nat>, generate: SkuGenerator)
    ensures var r := Creating(w, auth, generate);
      && (SkuWanted(w) ==> Attr(r, "sku") == generate(CreatingBrandArgument(ReadBrand(w)), Attr(w, "name")))
      && (!SkuWanted(w) ==> Attr(r, "sku") == Attr(w, "sku"))
      && (!Empty(Attr(w, "sku")) ==> r.attributes == SetUserId(w, auth).attributes)
  {
    var w1 := SetUserId(w, auth);
    assert Attr(w1, "sku") == Attr(w, "sku") && Attr(w1, "name") == Attr(w, "name");
    assert ReadBrand(w1) == ReadBrand(w);
  }

  /** The two `creating` hooks, the observer's and the model's own date
      stamp, touch different attributes, so their order does not matter. */
  lemma CreatingHooksCommute(w: WatchState, auth: Option<nat>, generate: SkuGenerator, today: string)
    ensures Creating(StampPurchaseDate(w, today), auth, generate) == StampPurchaseDate(Creating(w, auth, generate), today)
  {
    var w1 := SetUserId(w, auth);
    assert SetUserId(StampPurchaseDate(w, today), auth) == StampPurchaseDate(w1, today) by {
      assert Attr(StampPurchaseDate(w, today), "user_id") == Attr(w, "user_id");
      if Empty(Attr(w, "user_id")) && auth.Some? {
        StampCommutesWithSetAttr(w, "user_id", JInt(auth.value), today);
      }
    }
    StampCommutesWithSkuStep(w1, generate, today);
  }

  lemma StampCommutesWithSetAttr(w: WatchState, key: string, v: Json, today: string)
    requires key != "cost_purchase_date"
    ensures StampPurchaseDate(SetAttr(w, key, v), today) == SetAttr(StampPurchaseDate(w, today), key, v)
  {
    assert Attr(SetAttr(w, key, v), "cost_purchase_date") == Attr(w, "cost_purchase_date");
  }

  lemma StampCommutesWithSkuStep(w: WatchState, generate: SkuGenerator, today: string)
    ensures GenerateSkuIfNeeded(StampPurchaseDate(w, today), generate) == StampPurchaseDate(GenerateSkuIfNeeded(w, generate), today)
  {
    var s := StampPurchaseDate(w, today);
    assert Attr(s, "sku") == Attr(w, "sku") && Attr(s, "name") == Attr(w, "name");
    assert ReadBrand(s) == ReadBrand(w);
    if Empty(Attr(w, "sku")) && !Empty(Attr(w, "name")) {
      var w1 := AfterBrandRead(w);
      assert AfterBrandRead(s) == StampPurchaseDate(w1, today) by {
        assert Attr(w1, "cost_purchase_date") == Attr(w, "cost_purchase_date");
      }
      if BrandTruthy(ReadBrand(w)) {
        StampCommutesWithSetAttr(w1, "sku", generate(CreatingBrandArgument(ReadBrand(w)), Attr(w, "name")), today);
      }
    }
  }

  // ---------------------------------------------------------------------
  // updating

  /** `setUpdatedBy`. */
  function SetUpdatedBy(w: WatchState, auth: Option<nat>): (r: WatchState)
    ensures auth.Some? ==> r == SetAttr(w, "updated_by", JInt(auth.value))
    ensures auth.None? ==> r == w
  {
    if auth.Some? then SetAttr(w, "updated_by", JInt(auth.value)) else w
  }

  /** `hasBrandNameChanged`. `None` is the PHP `Error` raised by calling
      `isDirty` on a brand that is not a model (null or a raw attribute). */
  function HasBrandNameChanged(w: WatchState): (r: Option<bool>)
    ensures IsDirty(w, "brand_id") ==> r == Some(false)
    ensures !w.brandLoaded ==> r == Some(false)
    ensures !IsDirty(w, "brand_id") && w.brandLoaded ==>
      (r.Some? <==> ReadBrand(w).Related? && ReadBrand(w).row.Some?)
    ensures !IsDirty(w, "brand_id") && w.brandLoaded && ReadBrand(w).Related? && ReadBrand(w).row.Some? ==>
      r == Some(ReadBrand(w).row.value.nameDirty)
  {
    if IsDirty(w, "brand_id") then Some(false)
    else if !w.brandLoaded then Some(false)
    else match ReadBrand(w)
      case Related(Some(b)) => Some(b.nameDirty)
      case _ => None
  }

  /** Whether `regenerateSkuIfNeeded` calls the generator, when the brand
      check did not raise. */
  predicate SkuStale(w: WatchState)
    requires HasBrandNameChanged(w).Some?
  {
    IsDirty(w, "name") || IsDirty(w, "brand_id") || HasBrandNameChanged(w).value
  }

  /** `$watch->brand?->name ?? ''`. */
  function UpdatingBrandName(b: BrandRead): (r: Json)
    ensures r != JNull
    ensures b.Related? && b.row.Some? && b.row.value.name != JNull ==> r == b.row.value.name
    ensures !(b.Related? && b.row.Some?) ==> r == JStr("")
  {
    match b
    case Related(Some(row)) => if row.name != JNull then row.name else JStr("")
    case _ => JStr("")
  }

  /** `regenerateSkuIfNeeded`; `None` when the brand check raised. All three
      checks run before the decision, so the check raises even when the name
      alone changed. */
  function RegenerateSkuIfNeeded(w: WatchState, generate: SkuGenerator): (r: Option<WatchState>)
    ensures r.None? <==> HasBrandNameChanged(w).None?
    ensures r.Some? && SkuStale(w) ==>
      r.value.attributes == w.attributes["sku" := generate(BrandText(UpdatingBrandName(ReadBrand(w))), Attr(w, "name"))]
    ensures r.Some? && !SkuStale(w) ==> r.value == w
    ensures r.Some? ==> r.value.original == w.original && r.value.brand == w.brand && r.value.images == w.images
  {
    var changed := HasBrandNameChanged(w);
    if changed.None? then None
    else if SkuStale(w) then
      Some(SetAttr(AfterBrandRead(w), "sku", generate(BrandText(UpdatingBrandName(ReadBrand(w))), Attr(w, "name"))))
    else Some(w)
  }

  /** The watch after the `updating` hook, and whether the hook completed. */
  datatype Hooked = Hooked(state: WatchState, completed: bool)

  function Updating(w: WatchState, auth: Option<nat>, generate: SkuGenerator): (r: Hooked)
    ensures r.completed <==> HasBrandNameChanged(w).Some?
    ensures auth.Some? ==> Attr(r.state, "updated_by") == JInt(auth.value)
    ensures auth.None? ==> Attr(r.state, "updated_by") == Attr(w, "updated_by")
    ensures r.completed && SkuStale(w) ==>
      Attr(r.state, "sku") == generate(BrandText(UpdatingBrandName(ReadBrand(w))), Attr(w, "name"))
    ensures !(r.completed && SkuStale(w)) ==> Attr(r.state, "sku") == Attr(w, "sku")
    ensures forall k :: k != "updated_by" && k != "sku" ==> Attr(r.state, k) == Attr(w, k)
  {
    SetUpdatedByKeepsSkuInputs(w, auth);
    var w1 := SetUpdatedBy(w, auth);
    match RegenerateSkuIfNeeded(w1, generate)
    case Some(w2) => Hooked(w2, true)
    case None => Hooked(w1, false)
  }

  /** Stamping the editor leaves every input of the SKU decision as it was. */
  lemma SetUpdatedByKeepsSkuInputs(w: WatchState, auth: Option<nat>)
    ensures var w1 := SetUpdatedBy(w, auth);
      && IsDirty(w1, "name") == IsDirty(w, "name") && IsDirty(w1, "brand_id") == IsDirty(w, "brand_id")
      && ReadBrand(w1) == ReadBrand(w) && w1.brandLoaded == w.brandLoaded
      && Attr(w1, "name") == Attr(w, "name") && Attr(w1, "sku") == Attr(w, "sku")
      && HasBrandNameChanged(w1) == HasBrandNameChanged(w)
  {
  }

  /** On update, the editor is the signed-in user whenever someone is signed
      in, and stays as it was otherwise, whether or not the hook completes. */
  lemma UpdatingStampsEditor(w: WatchState, auth: Option<nat>, generate: SkuGenerator)
    ensures var r := Updating(w, auth, generate);
      && (auth.Some? ==> Attr(r.state, "updated_by") == JInt(auth.value))
      && (auth.None? ==> Attr(r.state, "updated_by") == Attr(w, "updated_by"))
  {
  }

  /** On update, when the brand check does not raise, the SKU is regenerated
      exactly when the name, the brand reference or the loaded brand's name
      changed; otherwise it stays. */
  lemma UpdatingSku(w: WatchState, auth: Option<nat>, generate: SkuGenerator)
    ensures var r := Updating(w, auth, generate);
      && (r.completed <==> HasBrandNameChanged(w).Some?)
      && (r.completed && SkuStale(w) ==>
            Attr(r.state, "sku") == generate(BrandText(UpdatingBrandName(ReadBrand(w))), Attr(w, "name")))
      && (r.completed && !SkuStale(w) ==> Attr(r.state, "sku") == Attr(w, "sku"))
      && (!r.completed ==> Attr(r.state, "sku") == Attr(w, "sku"))
  {
    SetUpdatedByKeepsSkuInputs(w, auth);
  }

  /** A loaded brand that is null makes the update hook raise, even when the
      watch's own name changed: the hook never reaches the SKU. */
  lemma NullLoadedBrandRaises(w: WatchState, auth: Option<nat>, generate: SkuGenerator)
    requires !IsDirty(w, "brand_id") && w.brandLoaded && "brand" !in w.attributes && w.brand.None?
    ensures !Updating(w, auth, generate).completed
  {
    SetUpdatedByKeepsSkuInputs(w, auth);
  }

  // ---------------------------------------------------------------------
  // deleting

  /** The path `deleteImageFile` would remove: `public_url ?? ''`, when not PHP-empty. */
  function FilePath(image: WatchImage): (r: set<string>)
    ensures r == {} <==> image.publicUrl.None? || EmptyString(image.publicUrl.value)
    ensures r != {} ==> r == {image.publicUrl.value}
  {
    if image.publicUrl.Some? && !EmptyString(image.publicUrl.value) then {image.publicUrl.value} else {}
  }

  /** The paths of a list of images, built up in list order. */
  function FilePaths(images: seq<WatchImage>): set<string> {
    if images == [] then {} else FilePaths(images[..|images| - 1]) + FilePath(images[|images| - 1])
  }

  /** The row ids of a list of images, built up in list order. */
  function ImageIds(images: seq<WatchImage>): set<nat> {
    if images == [] then {} else ImageIds(images[..|images| - 1]) + {images[|images| - 1].id}
  }

  /** A path is deleted exactly when some image has it as its non-empty
      public URL. */
  lemma {:induction false} FilePathsMembership(images: seq<WatchImage>, p: string)
    ensures p in FilePaths(images) <==>
      exists i :: 0 <= i < |images| && images[i].publicUrl == Some(p) && !EmptyString(p)
    decreases |images|
  {
    if images != [] {
      var n := |images| - 1;
      FilePathsMembership(images[..n], p);
      if exists i :: 0 <= i < |images| && images[i].publicUrl == Some(p) && !EmptyString(p) {
        var i :| 0 <= i < |images| && images[i].publicUrl == Some(p) && !EmptyString(p);
        if i < n {
          assert images[..n][i] == images[i];
        }
      }
      if exists i :: 0 <= i < n && images[..n][i].publicUrl == Some(p) && !EmptyString(p) {
        var i :| 0 <= i < n && images[..n][i].publicUrl == Some(p) && !EmptyString(p);
        assert images[i] == images[..n][i];
      }
    }
  }

  lemma {:induction false} ImageIdsMembership(images: seq<WatchImage>, id: nat)
    ensures id in ImageIds(images) <==> exists i :: 0 <= i < |images| && images[i].id == id
    decreases |images|
  {
    if images != [] {
      var n := |images| - 1;
      ImageIdsMembership(images[..n], id);
      if exists i :: 0 <= i < |images| && images[i].id == id {
        var i :| 0 <= i < |images| && images[i].id == id;
        if i < n {
          assert images[..n][i] == images[i];
        }
      }
      if exists i :: 0 <= i < n && images[..n][i].id == id {
        var i :| 0 <= i < n && images[..n][i].id == id;
        assert images[i] == images[..n][i];
      }
    }
  }

  /** The files and rows removed do not depend on the order the images are
      visited in, and a file named "0" is never removed (PHP finds it empty). */
  lemma DeletionIgnoresOrder(rows: seq<WatchImage>)
    ensures FilePaths(Ordered(rows)) == FilePaths(rows)
    ensures ImageIds(Ordered(rows)) == ImageIds(rows)
    ensures "0" !in FilePaths(rows) && "" !in FilePaths(rows)
  {
    var o := Ordered(rows);
    forall p ensures p in FilePaths(o) <==> p in FilePaths(rows) {
      FilePathsMembership(o, p);
      FilePathsMembership(rows, p);
      if p in FilePaths(o) {
        var i :| 0 <= i < |o| && o[i].publicUrl == Some(p) && !EmptyString(p);
        assert o[i] in rows;
      }
      if p in FilePaths(rows) {
        var i :| 0 <= i < |rows| && rows[i].publicUrl == Some(p) && !EmptyString(p);
        assert rows[i] in o;
      }
    }
    forall id ensures id in ImageIds(o) <==> id in ImageIds(rows) {
      ImageIdsMembership(o, id);
      ImageIdsMembership(rows, id);
      if id in ImageIds(o) {
        var i :| 0 <= i < |o| && o[i].id == id;
        assert o[i] in rows;
      }
      if id in ImageIds(rows) {
        var i :| 0 <= i < |rows| && rows[i].id == id;
        assert rows[i] in o;
      }
    }
    FilePathsMembership(rows, "0");
    FilePathsMembership(rows, "");
  }

  /** The public disk. */
  class Disk {
    var files: set<string>

    constructor (files: set<string>)
      ensures this.files == files
    {
      this.files := files;
    }

    predicate Exists(path: string)
      reads this
    {
      path in files
    }

    method Delete(path: string)
      modifies this
      ensures files == old(files) - {path}
    {
      files := files - {path};
    }
  }

  /** The image table. */
  class ImageRecords {
    var ids: set<nat>

    constructor (ids: set<nat>)
      ensures this.ids == ids
    {
      this.ids := ids;
    }

    method Delete(id: nat)
      modifies this
      ensures ids == old(ids) - {id}
    {
      ids := ids - {id};
    }
  }

  /** `deleteImageFile`: a missing file is skipped silently, which removes
      nothing, as deleting it would. */
  method DeleteImageFile(disk: Disk, image: WatchImage)
    modifies disk
    ensures disk.files == old(disk.files) - FilePath(image)
  {
    var path := if image.publicUrl.Some? then image.publicUrl.value else "";
    if !EmptyString(path) && disk.Exists(path) {
      disk.Delete(path);
    }
  }

  /** The `deleting` hook: every image of the watch, in relation order, loses
      its file and its row. */
  method Deleting(watch: Watch, disk: Disk, records: ImageRecords)
    modifies disk, records
    ensures disk.files == old(disk.files) - FilePaths(Ordered(watch.images))
    ensures records.ids == old(records.ids) - ImageIds(Ordered(watch.images))
  {
    var images := Ordered(watch.images);
    var k := 0;
    while k < |images|
      invariant 0 <= k <= |images|
      invariant disk.files == old(disk.files) - FilePaths(images[..k])
      invariant records.ids == old(records.ids) - ImageIds(images[..k])
    {
      assert images[..k + 1][..k] == images[..k];
      DeleteImageFile(disk, images[k]);
      records.Delete(images[k].id);
      k := k + 1;
    }
    assert images[..k] == images;
  }

  /** A watch without images leaves the disk and the image table alone. */
  lemma NoImagesNoChanges(rows: seq<WatchImage>)
    requires rows == []
    ensures FilePaths(Ordered(rows)) == {} && ImageIds(Ordered(rows)) == {}
  {
  }

  // ---------------------------------------------------------------------
  // The hooks on the watch object

  method CreatingHook(watch: Watch, auth: Option<nat>, generate: SkuGenerator)
    modifies watch
    ensures watch.State() == Creating(old(watch.State()), auth, generate)
  {
    var w := watch.State();
    if Empty(Attr(w, "user_id")) && auth.Some? {
      watch.attributes := watch.attributes["user_id" := JInt(auth.value)];
    }
    w := watch.State();
    if Empty(Attr(w, "sku")) && !Empty(Attr(w, "name")) {
      var b := ReadBrand(w);
      if "brand" !in watch.attributes {
        watch.brandLoaded := true;
      }
      if BrandTruthy(b) {
        watch.attributes := watch.attributes["sku" := generate(CreatingBrandArgument(b), Attr(w, "name"))];
      }
    }
  }

  method UpdatingHook(watch: Watch, auth: Option<nat>, generate: SkuGenerator) returns (completed: bool)
    modifies watch
    ensures Hooked(watch.State(), completed) == Updating(old(watch.State()), auth, generate)
  {
    if auth.Some? {
      watch.attributes := watch.attributes["updated_by" := JInt(auth.value)];
    }
    var w := watch.State();
    var nameChanged := IsDirty(w, "name");
    var brandChanged := IsDirty(w, "brand_id");
    var brandNameChanged := HasBrandNameChanged(w);
    if brandNameChanged.None? {
      return false;
    }
    if nameChanged || brandChanged || brandNameChanged.value {
      var brandName := UpdatingBrandName(ReadBrand(w));
      if "brand" !in watch.attributes {
        watch.brandLoaded := true;
      }
      watch.attributes := watch.attributes["sku" := generate(BrandText(brandName), Attr(w, "name"))];
    }
    return true;
  }
}
