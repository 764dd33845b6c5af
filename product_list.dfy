/**
 * The pure list transforms of the admin dashboard: the `map`, `filter` and spread
 * expressions that toggle, delete, edit and add product records, the blank-image rule,
 * the upload checks and the default seed list.
 */
module ProductList {
  import opened JsValues
  import opened Seqs

  function Id(p: Record): JsValue { Get(p, "id") }
  function Flag(p: Record): JsValue { Get(p, "is_active") }

  /** `p.id === id`. */
  predicate HasId(p: Record, id: JsValue) { StrictEquals(Id(p), id) }

  /** The ids of a list, in order. */
  function Ids(ps: seq<Record>): (r: seq<JsValue>)
    ensures |r| == |ps|
  {
    seq(|ps|, i requires 0 <= i < |ps| => Id(ps[i]))
  }

  // ---------------------------------------------------------------- toggle

  /** `{ ...p, is_active: !p.is_active }`. */
  function Flipped(p: Record): Record {
    p["is_active" := Bool(!Truthy(Flag(p)))]
  }

  /** `products.map(p => p.id === id ? { ...p, is_active: !p.is_active } : p)`. */
  function ToggleActive(ps: seq<Record>, id: JsValue): (r: seq<Record>)
    ensures |r| == |ps|
    ensures forall i :: 0 <= i < |ps| && !HasId(ps[i], id) ==> r[i] == ps[i]
    ensures forall i :: 0 <= i < |ps| && HasId(ps[i], id) ==>
      Flag(r[i]).Bool? && (Truthy(Flag(r[i])) <==> !Truthy(Flag(ps[i])))
    ensures forall i, k :: 0 <= i < |ps| && HasId(ps[i], id) && k != "is_active" ==>
      Get(r[i], k) == Get(ps[i], k)
    ensures forall i :: 0 <= i < |ps| && HasId(ps[i], id) ==> r[i].Keys == ps[i].Keys + {"is_active"}
  {
    seq(|ps|, i requires 0 <= i < |ps| => if HasId(ps[i], id) then Flipped(ps[i]) else ps[i])
  }

  /** Flipping twice stores the truthiness of the original flag as a boolean. */
  lemma FlippedTwice(p: Record)
    ensures Flipped(Flipped(p)) == p["is_active" := Bool(Truthy(Flag(p)))]
  {
    assert Flag(Flipped(p)) == Bool(!Truthy(Flag(p)));
  }

  /**
   * Toggling the same id twice gives back the original list, provided every product
   * with that id carries a boolean flag (as the dashboard's own records do).
   */
  lemma ToggleTwiceRestores(ps: seq<Record>, id: JsValue)
    requires forall i :: 0 <= i < |ps| && HasId(ps[i], id) ==> Flag(ps[i]).Bool?
    ensures ToggleActive(ToggleActive(ps, id), id) == ps
  {
    var once := ToggleActive(ps, id);
    var twice := ToggleActive(once, id);
    forall i | 0 <= i < |ps|
      ensures twice[i] == ps[i]
    {
      if HasId(ps[i], id) {
        assert once[i] == Flipped(ps[i]);
        assert HasId(once[i], id);
        FlippedTwice(ps[i]);
        assert "is_active" in ps[i];
        assert ps[i]["is_active" := Bool(Truthy(Flag(ps[i])))] == ps[i];
      }
    }
  }

  /**
   * With a non-boolean flag the double toggle is not the identity: a record stored with
   * the string "true" comes back with the boolean `true`.
   */
  lemma ToggleTwiceNormalisesStringFlag()
    ensures var p := map["id" := Num(1.0), "is_active" := Str("true")];
      ToggleActive(ToggleActive([p], Num(1.0)), Num(1.0)) == [p["is_active" := Bool(true)]]
      && p["is_active" := Bool(true)] != p
  {
    var p := map["id" := Num(1.0), "is_active" := Str("true")];
    var once := ToggleActive([p], Num(1.0));
    assert once[0] == Flipped(p);
    assert HasId(once[0], Num(1.0));
    FlippedTwice(p);
    assert p["is_active" := Bool(true)]["is_active"] != p["is_active"];
  }

  /** Toggling never changes which ids the list holds, nor their order. */
  lemma ToggleKeepsIds(ps: seq<Record>, id: JsValue)
    ensures Ids(ToggleActive(ps, id)) == Ids(ps)
  {
    var r := ToggleActive(ps, id);
    forall i | 0 <= i < |ps| ensures Ids(r)[i] == Ids(ps)[i] {
      assert Get(r[i], "id") == Get(ps[i], "id");
    }
  }

  // ---------------------------------------------------------------- delete

  /** The test `p => p.id !== id` of the delete filter. */
  function KeepsOtherIds(id: JsValue): Record -> bool {
    p => !HasId(p, id)
  }

  /** The complementary test `p => p.id === id`. */
  function MatchesId(id: JsValue): Record -> bool {
    p => HasId(p, id)
  }

  /** `products.filter(p => p.id !== id)`. */
  function DeleteById(ps: seq<Record>, id: JsValue): (r: seq<Record>)
    ensures forall p :: p in r <==> p in ps && !HasId(p, id)
    ensures forall p :: multiset(r)[p] == if HasId(p, id) then 0 else multiset(ps)[p]
    ensures |r| + |Filter(ps, MatchesId(id))| == |ps|
  {
    FilterPartition(ps, MatchesId(id), KeepsOtherIds(id));
    Filter(ps, KeepsOtherIds(id))
  }

  /** Deletion keeps the surviving products in their original order. */
  lemma DeleteKeepsOrder(ps: seq<Record>, id: JsValue)
    ensures IsSubsequence(DeleteById(ps, id), ps)
  {
    FilterIsSubsequence(ps, KeepsOtherIds(id));
  }

  /** Deleting an id that no product carries leaves the list as it was. */
  lemma DeleteAbsentId(ps: seq<Record>, id: JsValue)
    requires forall i :: 0 <= i < |ps| ==> !HasId(ps[i], id)
    ensures DeleteById(ps, id) == ps
  {
    FilterKeepsAll(ps, KeepsOtherIds(id));
  }

  /** Deleting the same id again changes nothing. */
  lemma DeleteIdempotent(ps: seq<Record>, id: JsValue)
    ensures DeleteById(DeleteById(ps, id), id) == DeleteById(ps, id)
  {
    FilterIdempotent(ps, KeepsOtherIds(id));
  }

  // ---------------------------------------------------------------- edit / add

  /** `products.map(p => p.id === id ? replacement : p)`. */
  function EditById(ps: seq<Record>, id: JsValue, replacement: Record): (r: seq<Record>)
    ensures |r| == |ps|
    ensures forall i :: 0 <= i < |ps| ==> r[i] == (if HasId(ps[i], id) then replacement else ps[i])
  {
    seq(|ps|, i requires 0 <= i < |ps| => if HasId(ps[i], id) then replacement else ps[i])
  }

  /** A replacement carrying the edited id keeps every id of the list in place. */
  lemma EditKeepsIds(ps: seq<Record>, id: JsValue, replacement: Record)
    requires Id(replacement) == id
    ensures Ids(EditById(ps, id, replacement)) == Ids(ps)
  {
  }

  /** Submitting the same edit twice is the same as submitting it once. */
  lemma EditIdempotent(ps: seq<Record>, id: JsValue, replacement: Record)
    requires Id(replacement) == id
    ensures EditById(EditById(ps, id, replacement), id, replacement) == EditById(ps, id, replacement)
  {
  }

  /** `[...products, p]`. */
  function Append(ps: seq<Record>, p: Record): (r: seq<Record>)
    ensures |r| == |ps| + 1 && r[..|ps|] == ps && r[|ps|] == p
  {
    ps + [p]
  }

  /**
   * An id collision is not prevented: appending a record whose id is already in the
   * list leaves two products with that id.
   */
  lemma AppendMayDuplicateId(ps: seq<Record>, p: Record, j: nat)
    requires j < |ps| && Id(ps[j]) == Id(p)
    ensures var r := Append(ps, p); j != |ps| && Id(r[j]) == Id(r[|ps|])
  {
  }

  // ---------------------------------------------------------------- form → record

  /** The dashboard's form state, one JavaScript value per input. */
  datatype FormData = FormData(
    name: JsValue, description: JsValue, image: JsValue,
    price: JsValue, channels: JsValue, isActive: JsValue)

  /** The cleared form: empty text fields, the "Active" box ticked. */
  const EmptyForm := FormData(Str(""), Str(""), Str(""), Str(""), Str(""), Bool(true))

  /** `{ ...formData }` as a plain object. */
  function FormRecord(f: FormData): Record {
    map["name" := f.name, "description" := f.description, "image" := f.image,
        "price" := f.price, "channels" := f.channels, "is_active" := f.isActive]
  }

  /**
   * `formData.image && formData.image.trim() !== '' ? formData.image : null`:
   * a missing, empty or white-space-only image is stored as `null`.
   */
  function NormalizeImage(v: JsValue): (r: JsValue)
    ensures r == v || r == Null
    ensures (v.Str? && !Blank(v.s)) ==> r == v
    ensures (v.Str? && Blank(v.s)) ==> r == Null
    ensures !Truthy(v) ==> r == Null
  {
    if Truthy(v) && v.Str? && !Blank(v.s) then v else Null
  }

  /**
   * The record `handleSubmit` stores: the form's fields, overridden by `id`, the parsed
   * `price`, `parseInt(channels) || null` and the normalised image.
   */
  function FormToProduct(f: FormData, id: JsValue, parsedPrice: JsValue, parsedChannels: JsValue): (r: Record)
    ensures Id(r) == id
    ensures Get(r, "price") == parsedPrice
    ensures Get(r, "channels") == (if Truthy(parsedChannels) then parsedChannels else Null)
    ensures Get(r, "image") == NormalizeImage(f.image)
    ensures Get(r, "name") == f.name && Get(r, "description") == f.description
    ensures Flag(r) == f.isActive
    ensures r.Keys == {"id", "name", "description", "image", "price", "channels", "is_active"}
  {
    FormRecord(f)["id" := id]["price" := parsedPrice]["channels" := Or(parsedChannels, Null)]
      ["image" := NormalizeImage(f.image)]
  }

  /**
   * `handleEdit`: the form is filled from the product. `priceText` and `channelsText`
   * are what `price.toString()` and `channels.toString()` give.
   */
  function FormFromProduct(p: Record, priceText: string, channelsText: string): (f: FormData)
    ensures f.price == Str(priceText) && f.channels.Str?
    ensures f.channels == Str("") <==> !Truthy(Get(p, "channels")) || channelsText == ""
    ensures Truthy(Get(p, "channels")) ==> f.channels == Str(channelsText)
    ensures f.isActive == Flag(p)
    ensures WellFormed(p) ==>
      && f.name == p["name"] && f.description == p["description"]
      && f.image.Str? && (f.image == Str("") <==> p["image"] == Null)
      && NormalizeImage(f.image) == p["image"]
  {
    FormData(Get(p, "name"), Or(Get(p, "description"), Str("")), Or(Get(p, "image"), Str("")),
             Str(priceText), if Truthy(Get(p, "channels")) then Str(channelsText) else Str(""),
             Flag(p))
  }

  /** The shape of a record that the dashboard itself writes. */
  predicate WellFormed(p: Record) {
    && p.Keys == {"id", "name", "description", "image", "price", "channels", "is_active"}
    && p["name"].Str?
    && p["description"].Str?
    && (p["image"] == Null || (p["image"].Str? && !Blank(p["image"].s)))
    && (p["channels"] == Null || Truthy(p["channels"]))
    && p["is_active"].Bool?
  }

  /**
   * Opening a well-formed product for editing and submitting the form unchanged stores
   * the same record again, provided parsing the displayed price and channel count gives
   * back the stored values (`parseInt('')` is `NaN`, hence falsy).
   */
  lemma EditRoundTrip(p: Record, priceText: string, channelsText: string,
                      parsedPrice: JsValue, parsedChannels: JsValue)
    requires WellFormed(p)
    requires parsedPrice == p["price"]
    requires Truthy(p["channels"]) ==> parsedChannels == p["channels"]
    requires !Truthy(p["channels"]) ==> !Truthy(parsedChannels)
    ensures FormToProduct(FormFromProduct(p, priceText, channelsText), Id(p), parsedPrice, parsedChannels) == p
  {
    var f := FormFromProduct(p, priceText, channelsText);
    var r := FormToProduct(f, Id(p), parsedPrice, parsedChannels);
    assert Truthy(p["description"]) || p["description"] == Str("");
    assert f.description == p["description"];
    if p["image"] == Null {
      assert f.image == Str("");
      assert Blank(f.image.s);
    } else {
      assert f.image == p["image"];
    }
    forall k | k in r.Keys ensures k in p && r[k] == p[k] {
      assert Get(r, k) == r[k] && Get(p, k) == p[k];
    }
    assert r.Keys == p.Keys;
  }

  // ---------------------------------------------------------------- uploads

  /** The upload limit: 2 MiB. */
  const MaxUploadBytes := 2 * 1024 * 1024

  datatype UploadVerdict = Accepted | TooLarge | NotAnImage

  /** `handleImageUpload`'s checks, size first, then the MIME type. */
  function CheckUpload(size: int, mimeType: string): (v: UploadVerdict)
    ensures v == Accepted <==> size <= 2097152 && StartsWith(mimeType, "image/")
    ensures v == TooLarge <==> size > 2097152
    ensures v == NotAnImage <==> size <= 2097152 && !StartsWith(mimeType, "image/")
  {
    if size > MaxUploadBytes then TooLarge
    else if !StartsWith(mimeType, "image/") then NotAnImage
    else Accepted
  }

  // ---------------------------------------------------------------- seed

  /** The four subscriptions installed when nothing has been saved yet. */
  function DefaultProducts(): (r: seq<Record>)
    ensures |r| == 4
    ensures forall i :: 0 <= i < 4 ==> Id(r[i]) == Num((i + 1) as real)
    ensures forall i :: 0 <= i < 4 ==> Flag(r[i]) == Bool(true) && Get(r[i], "image") == Null
    ensures forall i :: 0 <= i < 4 ==> WellFormed(r[i])
  {
    var month := Seed(1.0, "1 Month Subscription", MonthDescription, 50.0);
    var quarter := Seed(2.0, "3 Months Subscription", QuarterDescription, 120.0);
    var half := Seed(3.0, "6 Months Subscription", HalfYearDescription, 200.0);
    var year := Seed(4.0, "1 Year Subscription", YearDescription, 350.0);
    [month, quarter, half, year]
  }

  // The seed descriptions, as displayed on the cards.
  const MonthDescription := "Perfect for trying out our service. Access to all channels and movies for one month."
  const QuarterDescription := "Best value for short-term users. Enjoy 3 months of premium IPTV service with 24/7 support."
  const HalfYearDescription := "Great savings for long-term users. Get 6 months of unlimited access to all channels and movies."
  const YearDescription := "The best deal! Get a full year of premium IPTV service with the lowest monthly price."

  /** One seed record: no image, 45000 channels, active. */
  function Seed(id: real, name: string, description: string, price: real): (p: Record)
    ensures Id(p) == Num(id) && Flag(p) == Bool(true) && WellFormed(p) && p["image"] == Null
  {
    map["id" := Num(id), "name" := Str(name), "description" := Str(description), "image" := Null,
        "price" := Num(price), "channels" := Num(45000.0), "is_active" := Bool(true)]
  }
}
