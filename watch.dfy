/**
 * The watch record: its attribute bag (with the values last loaded from the
 * database, which decide what is dirty), the brand its `brand_id` points to,
 * and its image rows. The record's accessors project the image rows, ordered
 * by `order_index`, onto their URLs; its own `creating` hook stamps the
 * purchase date.
 */
module WatchModel {
  import opened PhpValues

  /** A brand row, as far as the watch's hooks look at it. */
  datatype Brand = Brand(name: Json, nameDirty: bool)

  /** An image row of a watch. `fullUrl` and `publicUrl` are the values of
      the image's `full_url` and `public_url` attributes. */
  datatype WatchImage = WatchImage(id: nat, orderIndex: int, fullUrl: Json, useForAi: bool, publicUrl: Option<string>)

  /** A snapshot of a watch: what its hooks read and write. */
  datatype WatchState = WatchState(
    attributes: map<string, Json>,
    original: map<string, Json>,
    brand: Option<Brand>,
    brandLoaded: bool,
    images: seq<WatchImage>)

  /** The mass-assignable attributes. */
  const Fillable: set<string> := {
    "sku", "name", "serial_number", "reference", "case_size", "wrist_size", "caliber", "timegrapher",
    "cost_original", "cost_euro", "cost_currency", "cost_currency_rate", "cost_currency_rate_date",
    "cost_purchase_date", "status", "stage", "ai_instructions", "ai_thread_id", "ai_status", "ai_message",
    "notes", "description", "location", "seller_id", "agent_id", "brand_id", "user_id", "updated_by",
    "batch_id", "platform"}

  /** Route-model binding looks watches up by SKU, an attribute that can be mass-assigned. */
  function RouteKeyName(): (r: string)
    ensures r in Fillable && r == "sku"
  {
    "sku"
  }

  /** `$watch->key` for a plain attribute: its value, or null when unset. */
  function Attr(w: WatchState, key: string): (r: Json)
    ensures key !in w.attributes ==> r == JNull
  {
    if key in w.attributes then w.attributes[key] else JNull
  }

  /** `$watch->isDirty(key)`: the attribute is set and differs from (or is
      missing in) the values last loaded from the database. */
  predicate IsDirty(w: WatchState, key: string)
    ensures !IsDirty(w, key) <==> key !in w.attributes || (key in w.original && w.original[key] == Attr(w, key))
  {
    key in w.attributes && (key !in w.original || w.original[key] != w.attributes[key])
  }

  /** Assigning one attribute. */
  function SetAttr(w: WatchState, key: string, v: Json): (r: WatchState)
    ensures r.attributes == w.attributes[key := v]
    ensures r.original == w.original && r.brand == w.brand && r.brandLoaded == w.brandLoaded && r.images == w.images
  {
    w.(attributes := w.attributes[key := v])
  }

  /** Assigning a value makes that attribute dirty exactly when the value
      differs from the loaded one, and leaves every other attribute's
      dirtiness as it was. */
  lemma AssignmentDirties(w: WatchState, key: string, v: Json)
    ensures IsDirty(SetAttr(w, key, v), key) <==> key !in w.original || w.original[key] != v
    ensures forall k :: k != key ==> IsDirty(SetAttr(w, key, v), k) == IsDirty(w, k)
  {
  }

  // ---------------------------------------------------------------------
  // The creating hook registered in `boot`

  /** An empty purchase date becomes today's date; a set one stays. */
  function StampPurchaseDate(w: WatchState, today: string): (r: WatchState)
    ensures Empty(Attr(w, "cost_purchase_date")) ==> r == SetAttr(w, "cost_purchase_date", JStr(today))
    ensures !Empty(Attr(w, "cost_purchase_date")) ==> r == w
  {
    if Empty(Attr(w, "cost_purchase_date")) then SetAttr(w, "cost_purchase_date", JStr(today)) else w
  }

  /** Stamping twice stamps once: a date that is a real date is never empty. */
  lemma StampPurchaseDateIdempotent(w: WatchState, today: string)
    requires !EmptyString(today)
    ensures StampPurchaseDate(StampPurchaseDate(w, today), today) == StampPurchaseDate(w, today)
    ensures Attr(StampPurchaseDate(w, today), "cost_purchase_date") != JNull
  {
    var w1 := StampPurchaseDate(w, today);
    assert !Empty(Attr(w1, "cost_purchase_date"));
  }

  // ---------------------------------------------------------------------
  // The `images` relation: rows ordered by `order_index`, ascending

  predicate SortedByOrder(s: seq<WatchImage>) {
    forall i, j :: 0 <= i < j < |s| ==> s[i].orderIndex <= s[j].orderIndex
  }

  /** Puts `x` before the first row whose index is not smaller. */
  function InsertByOrder(x: WatchImage, s: seq<WatchImage>): (r: seq<WatchImage>)
    ensures |r| == |s| + 1
    ensures multiset(r) == multiset(s) + multiset{x}
    ensures forall y :: y in r <==> y == x || y in s
  {
    if s == [] || x.orderIndex <= s[0].orderIndex then [x] + s
    else
      assert s == [s[0]] + s[1..];
      [s[0]] + InsertByOrder(x, s[1..])
  }

  lemma {:induction false} InsertKeepsSorted(x: WatchImage, s: seq<WatchImage>)
    requires SortedByOrder(s)
    ensures SortedByOrder(InsertByOrder(x, s))
    decreases |s|
  {
    if s != [] && x.orderIndex > s[0].orderIndex {
      InsertKeepsSorted(x, s[1..]);
      var rest := InsertByOrder(x, s[1..]);
      forall y | y in rest ensures s[0].orderIndex <= y.orderIndex {
        if y != x {
          var k :| 0 <= k < |s[1..]| && s[1..][k] == y;
          assert s[1 + k] == y;
        }
      }
    }
  }

  /** The image rows in the order the relation returns them. */
  function Ordered(rows: seq<WatchImage>): (r: seq<WatchImage>)
    ensures SortedByOrder(r)
    ensures |r| == |rows| && multiset(r) == multiset(rows)
    ensures forall x :: x in r <==> x in rows
  {
    if rows == [] then []
    else
      assert rows == [rows[0]] + rows[1..];
      InsertKeepsSorted(rows[0], Ordered(rows[1..]));
      InsertByOrder(rows[0], Ordered(rows[1..]))
  }

  /** `pluck('full_url')`. */
  function FullUrls(s: seq<WatchImage>): (r: seq<Json>)
    ensures |r| == |s|
    ensures forall i :: 0 <= i < |s| ==> r[i] == s[i].fullUrl
  {
    if s == [] then [] else [s[0].fullUrl] + FullUrls(s[1..])
  }

  /** `filter(fn ($image) => $image->use_for_ai)`, keeping the order. */
  function AiOnly(s: seq<WatchImage>): (r: seq<WatchImage>)
    ensures forall x :: x in r <==> x in s && x.useForAi
    ensures |r| <= |s|
    ensures Subsequence(r, s)
    ensures forall x :: multiset(r)[x] == if x.useForAi then multiset(s)[x] else 0
  {
    if s == [] then []
    else
      var rest := AiOnly(s[1..]);
      assert s == [s[0]] + s[1..];
      assert multiset(s) == multiset{s[0]} + multiset(s[1..]);
      if s[0].useForAi then
        SubsequenceKeep(s[0], rest, s[1..]);
        assert multiset([s[0]] + rest) == multiset{s[0]} + multiset(rest);
        [s[0]] + rest
      else
        SubsequenceSkip(s[0], rest, s[1..]);
        rest
  }

  /** The `image_urls` accessor. */
  function ImageUrls(rows: seq<WatchImage>): (r: seq<Json>)
    ensures var o := Ordered(rows);
      && |r| == |rows|
      && (forall i :: 0 <= i < |r| ==> r[i] == o[i].fullUrl)
      && SortedByOrder(o) && multiset(o) == multiset(rows)
  {
    FullUrls(Ordered(rows))
  }

  /** The `ai_image_urls` accessor. */
  function AiImageUrls(rows: seq<WatchImage>): (r: seq<Json>)
    ensures var o := AiOnly(Ordered(rows));
      && (forall x :: x in o <==> x in rows && x.useForAi)
      && |r| == |o| && (forall i :: 0 <= i < |r| ==> r[i] == o[i].fullUrl)
  {
    FullUrls(AiOnly(Ordered(rows)))
  }

  /** `a` is `b` with some elements left out, the rest in the same order. */
  predicate Subsequence<T(==)>(a: seq<T>, b: seq<T>)
    decreases |b|
  {
    if a == [] then true
    else if b == [] then false
    else (a[0] == b[0] && Subsequence(a[1..], b[1..])) || Subsequence(a, b[1..])
  }

  lemma {:induction false} FilteredUrlsAreSubsequence(s: seq<WatchImage>)
    ensures Subsequence(FullUrls(AiOnly(s)), FullUrls(s))
    decreases |s|
  {
    if s != [] {
      var t := s[1..];
      FilteredUrlsAreSubsequence(t);
      assert s == [s[0]] + t;
      FullUrlsCons(s[0], t);
      if s[0].useForAi {
        assert AiOnly(s) == [s[0]] + AiOnly(t);
        FullUrlsCons(s[0], AiOnly(t));
        SubsequenceKeep(s[0].fullUrl, FullUrls(AiOnly(t)), FullUrls(t));
      } else {
        assert AiOnly(s) == AiOnly(t);
        SubsequenceSkip(s[0].fullUrl, FullUrls(AiOnly(t)), FullUrls(t));
      }
    }
  }

  lemma FullUrlsCons(x: WatchImage, s: seq<WatchImage>)
    ensures FullUrls([x] + s) == [x.fullUrl] + FullUrls(s)
  {
    assert ([x] + s)[1..] == s;
  }

  lemma SubsequenceKeep<T>(x: T, a: seq<T>, b: seq<T>)
    requires Subsequence(a, b)
    ensures Subsequence([x] + a, [x] + b)
  {
    assert ([x] + a)[1..] == a && ([x] + b)[1..] == b;
  }

  lemma SubsequenceSkip<T>(x: T, a: seq<T>, b: seq<T>)
    requires Subsequence(a, b)
    ensures Subsequence(a, [x] + b)
  {
    assert ([x] + b)[1..] == b;
  }

  /** The AI URLs are the full URL list with the non-AI images left out, in
      the same order. */
  lemma AiImageUrlsSubsequenceOfImageUrls(rows: seq<WatchImage>)
    ensures Subsequence(AiImageUrls(rows), ImageUrls(rows))
  {
    FilteredUrlsAreSubsequence(Ordered(rows));
  }

  /** When every image is for AI use, the two accessors agree. */
  lemma {:induction false} AllForAiGivesSameUrls(rows: seq<WatchImage>)
    requires forall x :: x in rows ==> x.useForAi
    ensures AiImageUrls(rows) == ImageUrls(rows)
  {
    var o := Ordered(rows);
    forall x | x in o ensures x.useForAi {
      assert x in multiset(o);
    }
    AiOnlyKeepsAll(o);
  }

  lemma {:induction false} AiOnlyKeepsAll(s: seq<WatchImage>)
    requires forall x :: x in s ==> x.useForAi
    ensures AiOnly(s) == s
    decreases |s|
  {
    if s != [] {
      AiOnlyKeepsAll(s[1..]);
      assert s == [s[0]] + s[1..];
    }
  }

  /** No two rows share an `order_index`. */
  predicate DistinctIndices(s: seq<WatchImage>) {
    forall x, y :: x in s && y in s && x.orderIndex == y.orderIndex ==> x == y
  }

  /** Storage order does not matter: when no two rows share an index, the
      relation returns the same rows in the same order. */
  lemma OrderedIgnoresStorageOrder(a: seq<WatchImage>, b: seq<WatchImage>)
    requires multiset(a) == multiset(b)
    requires DistinctIndices(a)
    ensures Ordered(a) == Ordered(b)
  {
    var oa, ob := Ordered(a), Ordered(b);
    forall x | x in oa ensures x in a {
      assert x in multiset(oa);
    }
    SortedSameElementsEqual(oa, ob);
  }

  /** Two sorted lists holding the same elements, no two of which share an index, are equal. */
  lemma {:induction false} SortedSameElementsEqual(a: seq<WatchImage>, b: seq<WatchImage>)
    requires SortedByOrder(a) && SortedByOrder(b) && multiset(a) == multiset(b)
    requires DistinctIndices(a)
    ensures a == b
    decreases |a|
  {
    if a != [] {
      assert a[0] in multiset(b);
      SameFirst(a, b);
      SameRest(a, b);
      TailKeepsShape(a);
      TailKeepsShape(b);
      SortedSameElementsEqual(a[1..], b[1..]);
      ConsEqual(a, b);
    }
  }

  /** Dropping the first row keeps a list sorted and its indices distinct. */
  lemma TailKeepsShape(a: seq<WatchImage>)
    requires a != []
    ensures SortedByOrder(a) ==> SortedByOrder(a[1..])
    ensures DistinctIndices(a) ==> DistinctIndices(a[1..])
  {
    assert forall x :: x in a[1..] ==> x in a;
  }

  lemma ConsEqual(a: seq<WatchImage>, b: seq<WatchImage>)
    requires a != [] && b != [] && a[0] == b[0] && a[1..] == b[1..]
    ensures a == b
  {
    assert a == [a[0]] + a[1..] && b == [b[0]] + b[1..];
  }

  lemma SameFirst(a: seq<WatchImage>, b: seq<WatchImage>)
    requires a != [] && b != []
    requires SortedByOrder(a) && SortedByOrder(b) && multiset(a) == multiset(b)
    requires DistinctIndices(a)
    ensures a[0] == b[0]
  {
    assert a[0] in multiset(b) && b[0] in multiset(a);
    var i :| 0 <= i < |b| && b[i] == a[0];
    var j :| 0 <= j < |a| && a[j] == b[0];
    assert a[0].orderIndex <= a[j].orderIndex;
    assert b[0].orderIndex <= b[i].orderIndex;
  }

  lemma SameRest(a: seq<WatchImage>, b: seq<WatchImage>)
    requires a != [] && b != [] && a[0] == b[0] && multiset(a) == multiset(b)
    ensures multiset(a[1..]) == multiset(b[1..])
  {
    assert a == [a[0]] + a[1..] && b == [b[0]] + b[1..];
    assert multiset(a[1..]) == multiset(a) - multiset{a[0]};
    assert multiset(b[1..]) == multiset(b) - multiset{a[0]};
  }

  // ---------------------------------------------------------------------
  // The watch as an object

  class Watch {
    var attributes: map<string, Json>
    var original: map<string, Json>
    /** The brand row `brand_id` points to, if any. */
    var brand: Option<Brand>
    /** Whether the `brand` relation has been loaded on this object. */
    var brandLoaded: bool
    /** This watch's image rows, in storage order. */
    var images: seq<WatchImage>

    constructor (attributes: map<string, Json>, original: map<string, Json>, brand: Option<Brand>, brandLoaded: bool, images: seq<WatchImage>)
      ensures State() == WatchState(attributes, original, brand, brandLoaded, images)
    {
      this.attributes := attributes;
      this.original := original;
      this.brand := brand;
      this.brandLoaded := brandLoaded;
      this.images := images;
    }

    function State(): WatchState
      reads this
    {
      WatchState(attributes, original, brand, brandLoaded, images)
    }

    /** The `creating` closure registered in `boot`; `today` is `now()->toDateString()`. */
    method StampPurchaseDateOnCreate(today: string)
      modifies this
      ensures State() == StampPurchaseDate(old(State()), today)
    {
      if Empty(Attr(State(), "cost_purchase_date")) {
        attributes := attributes["cost_purchase_date" := JStr(today)];
      }
    }
  }
}
