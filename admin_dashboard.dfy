/**
 * The admin dashboard component: its state (`products`, `loading`, the form, the record
 * being edited, the image preview) and the browser's saved copy of the product list,
 * updated step by step by the load, save and form handlers.
 */
module AdminDashboard {
  import opened Wrappers
  import opened JsValues
  import opened ProductList

  /** The file picked in the upload input: its size in bytes and its MIME type. */
  datatype PickedFile = PickedFile(size: int, mimeType: string)

  class Dashboard {
    var products: seq<Record>
    var loading: bool
    var showForm: bool
    var editingProduct: Option<Record>
    var imagePreview: JsValue
    var formData: FormData
    /** The 'products' entry of the browser's storage; `None` when nothing was saved. */
    var savedProducts: Option<seq<Record>>
    /** How many 'productsUpdated' events have been dispatched. */
    var updateEvents: nat

    /** Once loaded, the saved list and the list on screen are the same list. */
    ghost predicate Valid()
      reads this
    {
      !loading ==> savedProducts == Some(products)
    }

    /** The component's first render, over whatever the browser had saved. */
    constructor (saved: Option<seq<Record>>)
      ensures Valid()
      ensures products == [] && loading && !showForm && editingProduct == None
      ensures imagePreview == Null && formData == EmptyForm
      ensures savedProducts == saved && updateEvents == 0
    {
      products := [];
      loading := true;
      showForm := false;
      editingProduct := None;
      imagePreview := Null;
      formData := EmptyForm;
      savedProducts := saved;
      updateEvents := 0;
    }

    /**
     * `loadProducts`: use the saved list as it is (even an empty one); with nothing
     * saved, install and save the four default products.
     */
    method LoadProducts()
      modifies this`products, this`savedProducts, this`loading
      ensures Valid() && !loading
      ensures old(savedProducts).Some? ==> products == old(savedProducts).value
      ensures old(savedProducts).None? ==> products == DefaultProducts()
      ensures savedProducts == Some(products)
    {
      if savedProducts.Some? {
        products := savedProducts.value;
      } else {
        var defaults := DefaultProducts();
        products := defaults;
        savedProducts := Some(defaults);
      }
      loading := false;
    }

    /**
     * `saveProducts`: write the list to storage and to state, then notify. `written` says
     * whether the storage write completes; when it throws (the storage quota is exceeded,
     * as a few uploaded images can do) nothing after it runs, so nothing changes.
     */
    method SaveProducts(updated: seq<Record>, written: bool)
      requires Valid()
      modifies this`products, this`savedProducts, this`updateEvents
      ensures Valid()
      ensures written ==> products == updated && savedProducts == Some(updated)
      ensures written ==> updateEvents == old(updateEvents) + 1
      ensures !written ==>
        products == old(products) && savedProducts == old(savedProducts) && updateEvents == old(updateEvents)
    {
      if written {
        savedProducts := Some(updated);
        products := updated;
        updateEvents := updateEvents + 1;
      }
    }

    /**
     * `handleImageUpload`. With no file nothing happens; a file over 2 MiB, or one whose
     * type is not `image/…`, is refused and the form is untouched; otherwise the form and
     * the preview take the file's data URL (`dataUrl`, what the reader produces).
     */
    method HandleImageUpload(file: Option<PickedFile>, dataUrl: string) returns (verdict: Option<UploadVerdict>)
      modifies this`formData, this`imagePreview
      ensures file.None? ==> verdict == None
      ensures file.Some? ==> verdict == Some(CheckUpload(file.value.size, file.value.mimeType))
      ensures verdict == Some(Accepted) ==>
        formData == old(formData).(image := Str(dataUrl)) && imagePreview == Str(dataUrl)
      ensures verdict != Some(Accepted) ==>
        formData == old(formData) && imagePreview == old(imagePreview)
    {
      if file.None? {
        return None;
      }
      var v := CheckUpload(file.value.size, file.value.mimeType);
      if v == Accepted {
        formData := formData.(image := Str(dataUrl));
        imagePreview := Str(dataUrl);
      }
      verdict := Some(v);
    }

    /** `handleImageUrlChange`: the typed URL goes into the form; a blank one clears the preview. */
    method HandleImageUrlChange(url: string)
      modifies this`formData, this`imagePreview
      ensures formData == old(formData).(image := Str(url))
      ensures imagePreview == if Blank(url) then Null else Str(url)
    {
      formData := formData.(image := Str(url));
      if url != "" && !Blank(url) {
        imagePreview := Str(url);
      } else {
        imagePreview := Null;
      }
    }

    /** The preview's "Remove" button: clear the preview and the form's image. */
    method RemoveImage()
      modifies this`formData, this`imagePreview
      ensures formData == old(formData).(image := Str("")) && imagePreview == Null
    {
      imagePreview := Null;
      formData := formData.(image := Str(""));
    }

    /** `resetForm` (also the Cancel button and a click on the overlay). */
    method ResetForm()
      modifies this`showForm, this`editingProduct, this`imagePreview, this`formData
      ensures !showForm && editingProduct == None && imagePreview == Null && formData == EmptyForm
    {
      showForm := false;
      editingProduct := None;
      imagePreview := Null;
      formData := EmptyForm;
    }

    /** The "+ Add Product" button: an empty form in add mode. */
    method OpenAddForm()
      modifies this`showForm, this`editingProduct, this`imagePreview, this`formData
      ensures showForm && editingProduct == None && imagePreview == Null && formData == EmptyForm
    {
      editingProduct := None;
      imagePreview := Null;
      formData := EmptyForm;
      showForm := true;
    }

    /**
     * `handleEdit`: remember the product and fill the form from it. `priceText` and
     * `channelsText` are the product's price and channel count rendered as text.
     */
    method HandleEdit(product: Record, priceText: string, channelsText: string)
      modifies this`showForm, this`editingProduct, this`imagePreview, this`formData
      ensures editingProduct == Some(product) && showForm
      ensures formData == FormFromProduct(product, priceText, channelsText)
      ensures imagePreview == Or(Get(product, "image"), Null)
    {
      editingProduct := Some(product);
      formData := FormFromProduct(product, priceText, channelsText);
      imagePreview := Or(Get(product, "image"), Null);
      showForm := true;
    }

    /**
     * `handleSubmit`. In edit mode every product carrying the edited id is replaced by the
     * form's record under that id; otherwise the form's record is appended under the id
     * `now` (the clock reading). `parsedPrice` and `parsedChannels` are what `parseFloat`
     * and `parseInt` make of the form's text. The list is saved and the form cleared; when
     * the storage write throws (`written` false) the handler stops there and the list, the
     * saved copy and the form all stay as they were.
     */
    method HandleSubmit(now: nat, parsedPrice: JsValue, parsedChannels: JsValue, written: bool)
      requires Valid()
      modifies this
      ensures Valid()
      ensures written && old(editingProduct).Some? ==>
        var id := Id(old(editingProduct).value);
        products == EditById(old(products), id, FormToProduct(old(formData), id, parsedPrice, parsedChannels))
      ensures written && old(editingProduct).None? ==>
        products == Append(old(products), FormToProduct(old(formData), Num(now as real), parsedPrice, parsedChannels))
      ensures written ==> savedProducts == Some(products) && updateEvents == old(updateEvents) + 1
      ensures written ==> !showForm && editingProduct == None && imagePreview == Null && formData == EmptyForm
      ensures !written ==>
        && products == old(products) && savedProducts == old(savedProducts) && updateEvents == old(updateEvents)
        && showForm == old(showForm) && editingProduct == old(editingProduct)
        && imagePreview == old(imagePreview) && formData == old(formData)
      ensures loading == old(loading)
    {
      var updated;
      if editingProduct.Some? {
        var id := Id(editingProduct.value);
        updated := EditById(products, id, FormToProduct(formData, id, parsedPrice, parsedChannels));
      } else {
        updated := Append(products, FormToProduct(formData, Num(now as real), parsedPrice, parsedChannels));
      }
      SaveProducts(updated, written);
      if written {
        ResetForm();
      }
    }

    /**
     * `handleDelete`: when the user confirms, drop every product with this id and save;
     * a storage write that throws leaves everything as it was.
     */
    method HandleDelete(productId: JsValue, confirmed: bool, written: bool)
      requires Valid()
      modifies this`products, this`savedProducts, this`updateEvents
      ensures Valid()
      ensures confirmed && written ==>
        (products == DeleteById(old(products), productId) && savedProducts == Some(products)
         && updateEvents == old(updateEvents) + 1)
      ensures !confirmed || !written ==>
        (products == old(products) && savedProducts == old(savedProducts) && updateEvents == old(updateEvents))
    {
      if confirmed {
        SaveProducts(DeleteById(products, productId), written);
      }
    }

    /**
     * `toggleActive`: flip the flag of every product with this id and save; a storage
     * write that throws leaves everything as it was.
     */
    method ToggleActive(productId: JsValue, written: bool)
      requires Valid()
      modifies this`products, this`savedProducts, this`updateEvents
      ensures Valid()
      ensures written ==> products == ProductList.ToggleActive(old(products), productId)
      ensures written ==> savedProducts == Some(products) && updateEvents == old(updateEvents) + 1
      ensures !written ==>
        products == old(products) && savedProducts == old(savedProducts) && updateEvents == old(updateEvents)
    {
      SaveProducts(ProductList.ToggleActive(products, productId), written);
    }
  }

  /**
   * Two first visits: with nothing saved the defaults are installed and saved; with an
   * empty list saved (every product deleted) the list stays empty, because an empty
   * saved list is still a saved list.
   */
  method FirstLoads()
  {
    var newcomer := new Dashboard(None);
    newcomer.LoadProducts();
    assert |newcomer.products| == 4 && newcomer.savedProducts == Some(DefaultProducts());
    var emptied := new Dashboard(Some([]));
    emptied.LoadProducts();
    assert emptied.products == [];
  }
}
