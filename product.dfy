/** The product form (component/Product/Product.js): the list of sizes with their stock,
    the size being entered, the subcategory choices of a category, the product images,
    and the checks made before a product is saved. */
module Product {
  import opened JsSemantics
  import opened ImageUpload

  /** A number input: never touched (`undefined`), cleared (`null`), or a number. */
  datatype NumField = Undefined | Null | Num(n: int)

  /** JavaScript truthiness of a number input: a number other than 0. */
  predicate Truthy(x: NumField) {
    x.Num? && x.n != 0
  }

  /** One size row of a product. */
  datatype Size = Size(size: string, chest: NumField, length: NumField, sleeve: NumField, shoulder: NumField, stock: NumField)

  /** The size inputs after a reset. */
  const EmptySize := Size("", Undefined, Undefined, Undefined, Undefined, Undefined)

  /** The `addSize` guard: the name and the four measurements must be truthy, and the
      stock must have been entered; a stock of 0 or a cleared stock passes. */
  predicate SizeComplete(s: Size) {
    s.size != "" && Truthy(s.chest) && Truthy(s.length) && Truthy(s.sleeve) && Truthy(s.shoulder) && s.stock != Undefined
  }

  // ---------------------------------------------------------------------------
  // The stock column

  /** `size.stock || 0`. */
  function StockOf(s: Size): int {
    if s.stock.Num? then s.stock.n else 0
  }

  /** `sizes.reduce((sum, size) => sum + (size.stock || 0), 0)`. */
  function TotalStock(sizes: seq<Size>): int {
    SumOf(sizes, StockOf)
  }

  /** The green "in stock" tag. */
  predicate InStock(sizes: seq<Size>) {
    TotalStock(sizes) > 0
  }

  /** With non-negative stocks, a product is in stock exactly when some size has stock. */
  lemma {:induction false} InStockIffSomeSize(sizes: seq<Size>)
    requires forall i :: 0 <= i < |sizes| ==> StockOf(sizes[i]) >= 0
    ensures InStock(sizes) <==> exists i :: 0 <= i < |sizes| && StockOf(sizes[i]) > 0
    decreases |sizes|
  {
    if sizes != [] {
      var n := |sizes| - 1;
      var init := sizes[..n];
      InStockIffSomeSize(init);
      SumOfNonNegative(init, StockOf);
      if exists i :: 0 <= i < |init| && StockOf(init[i]) > 0 {
        var i :| 0 <= i < |init| && StockOf(init[i]) > 0;
        assert StockOf(sizes[i]) > 0;
      }
      if exists i :: 0 <= i < |sizes| && StockOf(sizes[i]) > 0 {
        var i :| 0 <= i < |sizes| && StockOf(sizes[i]) > 0;
        if i < n {
          assert StockOf(init[i]) > 0;
        }
      }
    }
  }

  // ---------------------------------------------------------------------------
  // Categories

  const Categories: seq<string> := ["Men", "Women", "Kids"]

  /** `categories[category] || []`. */
  function Subcategories(category: string): (r: seq<string>)
    ensures category !in Categories ==> r == []
    ensures category in Categories ==> |r| > 0
  {
    if category == "Men" then ["Shirt", "Denim Jacket", "SOLID Shirt", "Check Shirt", "DENIM Shirt", "Paijama", "Panjabi"]
    else if category == "Women" then ["Dresses", "Tops", "Bottoms", "Accessories"]
    else if category == "Kids" then ["Boys", "Girls", "Infants"]
    else []
  }

  /** The three lists share no subcategory. */
  lemma SubcategoriesDisjoint(a: string, b: string, sub: string)
    requires a != b
    ensures !(sub in Subcategories(a) && sub in Subcategories(b))
  {
  }

  // ---------------------------------------------------------------------------
  // handleSubmit

  const ImagesMessage := "Please upload 1-3 product images"
  const SizesMessage := "Please add at least one size"
  const MissingIdMessage := "Product ID missing"

  /** `!currentProduct?._id`: no product is being edited, or its id is empty. */
  predicate IdMissing(productId: Option<string>) {
    productId.None? || productId == Some("")
  }

  /** The checks of `handleSubmit`, in their order: the image count, then the sizes, then
      (when editing) the product id. */
  function ValidateSubmit(imageCount: nat, sizeCount: nat, editMode: bool, productId: Option<string>): (r: Result<bool>)
    ensures r.Ok? <==> ImageCountAccepted(imageCount) && sizeCount > 0 && !(editMode && IdMissing(productId))
    ensures !ImageCountAccepted(imageCount) ==> r == Err(ImagesMessage)
    ensures ImageCountAccepted(imageCount) && sizeCount == 0 ==> r == Err(SizesMessage)
    ensures ImageCountAccepted(imageCount) && sizeCount > 0 && editMode && IdMissing(productId) ==> r == Err(MissingIdMessage)
    ensures r.Ok? ==> r.value == editMode
  {
    if !ImageCountAccepted(imageCount) then Err(ImagesMessage)
    else if sizeCount == 0 then Err(SizesMessage)
    else if editMode && IdMissing(productId) then Err(MissingIdMessage)
    else Ok(editMode)
  }

  /** The fields of the product form (`name`, `category`, `subCategory`, the three prices
      and `description`); a Select that was never chosen or was cleared is `None`. */
  datatype ProductFields = ProductFields(
    name: string,
    category: Option<string>,
    subCategory: Option<string>,
    price: NumField,
    prevPrice: NumField,
    discountPrice: NumField,
    description: string)

  /** The form after `form.resetFields()`. */
  const EmptyFields := ProductFields("", None, None, Undefined, Undefined, Undefined, "")

  /** What `handleSubmit` sends: the form's values with `images` and `sizes` attached, as a
      new product or as an update of product `id`. */
  datatype SubmitRequest =
    | Create(fields: ProductFields, images: seq<string>, sizes: seq<Size>)
    | Update(id: string, fields: ProductFields, images: seq<string>, sizes: seq<Size>)

  /** The names of the form's fields. */
  datatype FieldKey = NameKey | CategoryKey | SubCategoryKey | PriceKey | PrevPriceKey | DiscountPriceKey | DescriptionKey

  const AllKeys: set<FieldKey> := {NameKey, CategoryKey, SubCategoryKey, PriceKey, PrevPriceKey, DiscountPriceKey, DescriptionKey}

  /** A saved product as the table holds it: `keys` are the form fields its JSON object
      carries (a key carried with the value `null` is in `keys` with `None`/`Null`), and
      `fields` gives their values; a value under a key that is not carried means nothing. */
  datatype ProductRecord = ProductRecord(
    id: Option<string>,
    fields: ProductFields,
    keys: set<FieldKey>,
    images: seq<string>,
    sizes: seq<Size>)

  /** `form.setFieldsValue(values)`: antd merges `values` into the form's store, so each
      field that `values` carries takes its value and every other field keeps its own. */
  function MergeFields(form: ProductFields, values: ProductFields, keys: set<FieldKey>): (r: ProductFields)
    ensures keys == AllKeys ==> r == values
    ensures keys == {} ==> r == form
  {
    ProductFields(
      if NameKey in keys then values.name else form.name,
      if CategoryKey in keys then values.category else form.category,
      if SubCategoryKey in keys then values.subCategory else form.subCategory,
      if PriceKey in keys then values.price else form.price,
      if PrevPriceKey in keys then values.prevPrice else form.prevPrice,
      if DiscountPriceKey in keys then values.discountPrice else form.discountPrice,
      if DescriptionKey in keys then values.description else form.description)
  }

  /** Merging the same values a second time changes nothing more, and a later merge of
      every key hides whatever the form held before. */
  lemma MergeFieldsSettles(form: ProductFields, values: ProductFields, keys: set<FieldKey>, next: ProductFields)
    ensures MergeFields(MergeFields(form, values, keys), values, keys) == MergeFields(form, values, keys)
    ensures MergeFields(MergeFields(form, values, keys), next, AllKeys) == next
  {
  }

  /** Editing a product that carries every field and then, without a reset in between,
      one that lacks `subCategory` leaves the first product's subcategory in the form. */
  lemma EditLeavesStaleSubCategory(start: ProductFields, first: ProductRecord, second: ProductRecord)
    requires first.keys == AllKeys && SubCategoryKey !in second.keys
    ensures MergeFields(MergeFields(start, first.fields, first.keys), second.fields, second.keys).subCategory
            == first.fields.subCategory
  {
  }

  /** `product.category` as the record holds it: `undefined` when the key is not carried. */
  function RecordCategory(product: ProductRecord): Option<string> {
    if CategoryKey in product.keys then product.fields.category else None
  }

  /** `categories[category] || []` for a Select that may be empty. */
  function SubcategoriesOf(category: Option<string>): seq<string> {
    if category.Some? then Subcategories(category.value) else []
  }

  /** The form state: the form's fields, the sizes, the size being entered, the
      subcategory choices, edit mode with the edited product's id, and the images. */
  class ProductEditor {
    var fields: ProductFields
    var sizes: seq<Size>
    var currentSize: Size
    var availableSubCategories: seq<string>
    var editMode: bool
    var currentProductId: Option<string>
    const images: ImageUploader

    constructor ()
      ensures fields == EmptyFields && sizes == [] && currentSize == EmptySize && availableSubCategories == []
      ensures !editMode && currentProductId == None
      ensures fresh(images) && images.imageUrls == [] && images.uploadProgress == map[] && !images.uploading
    {
      fields, sizes, currentSize, availableSubCategories := EmptyFields, [], EmptySize, [];
      editMode, currentProductId := false, None;
      images := new ImageUploader();
    }

    /** Typing into the form's inputs other than the two Selects. */
    method SetFields(f: ProductFields)
      modifies this
      ensures fields == f.(category := old(fields.category), subCategory := old(fields.subCategory))
      ensures sizes == old(sizes) && currentSize == old(currentSize) && availableSubCategories == old(availableSubCategories)
      ensures editMode == old(editMode) && currentProductId == old(currentProductId)
    {
      fields := f.(category := fields.category, subCategory := fields.subCategory);
    }

    /** The subcategory Select: a choice, or `None` when it is cleared. */
    method SetSubCategory(sub: Option<string>)
      modifies this
      ensures fields == old(fields).(subCategory := sub)
      ensures sizes == old(sizes) && currentSize == old(currentSize) && availableSubCategories == old(availableSubCategories)
      ensures editMode == old(editMode) && currentProductId == old(currentProductId)
    {
      fields := fields.(subCategory := sub);
    }

    /** One of the size inputs: `setCurrentSize({ ...currentSize, field: value })`. */
    method SetCurrentSize(s: Size)
      modifies this
      ensures currentSize == s
      ensures fields == old(fields) && sizes == old(sizes) && availableSubCategories == old(availableSubCategories)
      ensures editMode == old(editMode) && currentProductId == old(currentProductId)
    {
      currentSize := s;
    }

    /** `addSize`: a complete size is appended and the inputs are reset; an incomplete one
        changes nothing (an error message is shown). */
    method AddSize() returns (added: bool)
      modifies this
      ensures added <==> SizeComplete(old(currentSize))
      ensures added ==> sizes == old(sizes) + [old(currentSize)] && currentSize == EmptySize
      ensures !added ==> sizes == old(sizes) && currentSize == old(currentSize)
      ensures TotalStock(sizes) == TotalStock(old(sizes)) + (if added then StockOf(old(currentSize)) else 0)
      ensures fields == old(fields) && availableSubCategories == old(availableSubCategories)
      ensures editMode == old(editMode) && currentProductId == old(currentProductId)
    {
      if !SizeComplete(currentSize) {
        return false;
      }
      SumOfAppend(sizes, [currentSize], StockOf);
      SumOfSingleton(currentSize, StockOf);
      sizes := sizes + [currentSize];
      currentSize := EmptySize;
      added := true;
    }

    /** `removeSize(index)`: a copy of the list without the element at `index`. */
    method RemoveSize(index: int)
      modifies this
      ensures sizes == RemoveAt(old(sizes), index)
      ensures 0 <= index < |old(sizes)| ==> TotalStock(sizes) == TotalStock(old(sizes)) - StockOf(old(sizes)[index])
      ensures fields == old(fields) && currentSize == old(currentSize) && availableSubCategories == old(availableSubCategories)
      ensures editMode == old(editMode) && currentProductId == old(currentProductId)
    {
      if 0 <= index < |sizes| {
        RemoveAtSum(sizes, index, StockOf);
      }
      sizes := RemoveAt(sizes, index);
    }

    /** A choice in the category Select: the form takes the category, the subcategory
        choices follow it (`handleCategoryChange`), and the chosen subcategory is cleared. */
    method HandleCategoryChange(category: string)
      modifies this
      ensures fields == old(fields).(category := Some(category), subCategory := None)
      ensures availableSubCategories == Subcategories(category)
      ensures old(fields.category).Some? && old(fields.category).value != category ==>
                forall sub :: sub in availableSubCategories ==> sub !in Subcategories(old(fields.category).value)
      ensures sizes == old(sizes) && currentSize == old(currentSize)
      ensures editMode == old(editMode) && currentProductId == old(currentProductId)
    {
      fields := fields.(category := Some(category), subCategory := None);
      availableSubCategories := Subcategories(category);
      if old(fields.category).Some? && old(fields.category).value != category {
        forall sub | sub in availableSubCategories
          ensures sub !in Subcategories(old(fields.category).value)
        {
          SubcategoriesDisjoint(category, old(fields.category).value, sub);
        }
      }
    }

    /** The "Add Product" button: a fresh form in create mode. */
    method StartCreate()
      modifies this, images
      ensures !editMode && currentProductId == None && fields == EmptyFields && sizes == [] && images.imageUrls == []
      ensures currentSize == old(currentSize) && availableSubCategories == old(availableSubCategories)
      ensures images.uploadProgress == old(images.uploadProgress) && images.uploading == old(images.uploading)
    {
      editMode, currentProductId := false, None;
      images.Clear();
      sizes := [];
      fields := EmptyFields;
    }

    /** `handleEdit(product)`: edit mode with the product's id, its images and sizes, the
        product merged into the form's fields, and the subcategory choices of its category.
        Cancelling the dialog does not reset the form, so a field the product does not
        carry keeps the value the form last held, possibly another product's. */
    method HandleEdit(product: ProductRecord)
      modifies this, images
      ensures editMode && currentProductId == product.id
      ensures fields == MergeFields(old(fields), product.fields, product.keys)
      ensures product.keys == AllKeys ==> fields == product.fields
      ensures SubCategoryKey !in product.keys ==> fields.subCategory == old(fields.subCategory)
      ensures DiscountPriceKey !in product.keys ==> fields.discountPrice == old(fields.discountPrice)
      ensures images.imageUrls == product.images && sizes == product.sizes
      ensures availableSubCategories == SubcategoriesOf(RecordCategory(product))
      ensures CategoryKey in product.keys && product.fields.category.Some? ==>
                availableSubCategories == Subcategories(product.fields.category.value)
      ensures currentSize == old(currentSize)
      ensures images.uploadProgress == old(images.uploadProgress) && images.uploading == old(images.uploading)
    {
      editMode, currentProductId := true, product.id;
      images.Load(product.images);
      sizes := product.sizes;
      fields := MergeFields(fields, product.fields, product.keys);
      availableSubCategories := SubcategoriesOf(RecordCategory(product));
    }

    /** One upload through the product form's control: shown below three images, disabled
        while an upload runs, gated by `beforeUpload`, keyed by the current image count.
        The product form reports every finished upload to the widget as a success. */
    method UploadImage(file: FileInfo, response: UploadResponse) returns (attempted: bool)
      modifies images
      ensures attempted <==> old(images.UploadOffered()) && !old(images.UploadDisabled()) && BeforeUpload(file) == Accept
      ensures attempted && response.Uploaded? ==> images.imageUrls == old(images.imageUrls) + [response.url]
      ensures !(attempted && response.Uploaded?) ==> images.imageUrls == old(images.imageUrls)
      ensures attempted ==> images.uploadProgress == old(images.uploadProgress) - {|old(images.imageUrls)|} && !images.uploading
      ensures !attempted ==> images.uploadProgress == old(images.uploadProgress) && images.uploading == old(images.uploading)
      ensures old(|images.imageUrls|) <= MaxImages ==> |images.imageUrls| <= MaxImages
    {
      if !images.UploadOffered() || images.UploadDisabled() || BeforeUpload(file) != Accept {
        return false;
      }
      var index := |images.imageUrls|;
      images.StartUpload(index);
      var url := images.FinishUpload(index, response);
      attempted := true;
    }

    /** `handleSubmit` after the form fields passed their own validation: the checks, then
        the request with the form's values, images and sizes; when the request does not
        throw the form, the images and the sizes are reset, and otherwise nothing changes. */
    method HandleSubmit(accepted: bool) returns (request: Result<SubmitRequest>)
      modifies this, images
      ensures var check := ValidateSubmit(|old(images.imageUrls)|, |old(sizes)|, old(editMode), old(currentProductId));
              && (check.Err? ==> request == Err(check.error))
              && (check.Ok? && !old(editMode) ==> request == Ok(Create(old(fields), old(images.imageUrls), old(sizes))))
              && (check.Ok? && old(editMode) ==> request == Ok(Update(old(currentProductId).value, old(fields), old(images.imageUrls), old(sizes))))
      ensures request.Ok? && request.value.Update? ==> request.value.id != ""
      ensures request.Ok? && accepted ==> fields == EmptyFields && images.imageUrls == [] && sizes == []
      ensures !(request.Ok? && accepted) ==> fields == old(fields) && images.imageUrls == old(images.imageUrls) && sizes == old(sizes)
      ensures currentSize == old(currentSize) && availableSubCategories == old(availableSubCategories)
      ensures editMode == old(editMode) && currentProductId == old(currentProductId)
      ensures images.uploadProgress == old(images.uploadProgress) && images.uploading == old(images.uploading)
    {
      var check := ValidateSubmit(|images.imageUrls|, |sizes|, editMode, currentProductId);
      if check.Err? {
        return Err(check.error);
      }
      if editMode {
        request := Ok(Update(currentProductId.value, fields, images.imageUrls, sizes));
      } else {
        request := Ok(Create(fields, images.imageUrls, sizes));
      }
      if accepted {
        images.Clear();
        sizes := [];
        fields := EmptyFields;
      }
    }
  }

  /** Every sent product has 1 to 3 images and at least one size, and an update names
      the product it changes by a non-empty id. */
  lemma SentRequestsAreValid(imageUrls: seq<string>, sizes: seq<Size>, editMode: bool, productId: Option<string>)
    requires ValidateSubmit(|imageUrls|, |sizes|, editMode, productId).Ok?
    ensures 1 <= |imageUrls| <= MaxImages && |sizes| >= 1
    ensures editMode ==> productId.Some? && productId.value != ""
  {
  }
}
