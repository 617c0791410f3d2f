/**
  The product editor of the admin back office (client/src/pages/admin/Products.tsx):
  opening it for a new or an existing product, closing it, the image list kept twice
  (the previews and the form's `images`), the size and colour checkboxes, the
  comma-separated materials and care inputs, and the submit dispatch.
 */
module AdminProducts {
  import opened Wrappers
  import Text
  import Lists

  datatype Design = Design(kind: string, description: string, placement: string)

  datatype ProductForm = ProductForm(
    name: string, description: string, price: int, category: string,
    images: seq<string>, sizes: seq<string>, colors: seq<string>, design: Design,
    materials: seq<string>, care: seq<string>, isActive: bool, isFeatured: bool, stock: int)

  const DefaultSizes: seq<string> := ["S", "M", "L", "XL"]
  const DefaultColors: seq<string> := ["Black", "White"]
  const DefaultDesign: Design := Design("graphic", "", "front")
  const DefaultMaterials: seq<string> := ["100% Cotton"]
  const DefaultCare: seq<string> := ["Machine wash cold", "Tumble dry low"]

  /** `initialFormData` */
  const InitialForm: ProductForm := ProductForm("", "", 0, "", [], DefaultSizes, DefaultColors, DefaultDesign,
                                                DefaultMaterials, DefaultCare, true, false, 0)

  /** A stored product as the listing hands it to the editor; absent fields are None. */
  datatype StoredProduct = StoredProduct(
    id: string, name: string, description: string, price: int, category: string,
    images: Option<seq<string>>, sizes: Option<seq<string>>, colors: Option<seq<string>>,
    design: Option<Design>, materials: Option<seq<string>>, care: Option<seq<string>>,
    isActive: bool, isFeatured: bool, stock: Option<int>)

  /** The editor's state: whether the dialog is open, the product being edited, the form and the previews. */
  datatype Editor = Editor(open: bool, editing: Option<string>, form: ProductForm, imageUrls: seq<string>)

  /** The previews show exactly the images the form will submit. */
  predicate InSync(e: Editor)
  {
    e.imageUrls == e.form.images
  }

  /**
    `handleOpenModal`: editing copies the product, taking the defaults for absent
    lists and design and 0 for an absent stock (an empty list is kept, as JavaScript
    treats it as present); creating starts from the initial form with no previews.
   */
  function OpenModal(e: Editor, product: Option<StoredProduct>): (r: Editor)
    ensures r.open
    ensures product.None? ==> r == Editor(true, None, InitialForm, [])
    ensures product.Some? ==> r.editing == Some(product.value.id)
    ensures product.Some? ==> var p := product.value;
      && r.form.name == p.name && r.form.description == p.description && r.form.price == p.price
      && r.form.category == p.category && r.form.images == p.images.GetOr([])
      && r.form.isActive == p.isActive && r.form.isFeatured == p.isFeatured
      && r.form.sizes == p.sizes.GetOr(DefaultSizes) && r.form.colors == p.colors.GetOr(DefaultColors)
      && r.form.design == p.design.GetOr(DefaultDesign)
      && r.form.materials == p.materials.GetOr(DefaultMaterials) && r.form.care == p.care.GetOr(DefaultCare)
      && r.form.stock == p.stock.GetOr(0)
    ensures InSync(r)
  {
    match product
    case None => Editor(true, None, InitialForm, [])
    case Some(p) =>
      var images := p.images.GetOr([]);
      var form := ProductForm(p.name, p.description, p.price, p.category, images,
                              p.sizes.GetOr(DefaultSizes), p.colors.GetOr(DefaultColors),
                              p.design.GetOr(DefaultDesign), p.materials.GetOr(DefaultMaterials),
                              p.care.GetOr(DefaultCare), p.isActive, p.isFeatured, p.stock.GetOr(0));
      Editor(true, Some(p.id), form, images)
  }

  /** `handleCloseModal`: closed, editing nothing, the initial form and no previews. */
  function CloseModal(e: Editor): (r: Editor)
    ensures !r.open && r.editing.None? && r.form == InitialForm && r.imageUrls == []
    ensures InSync(r)
  {
    Editor(false, None, InitialForm, [])
  }

  /** Closing and then opening for a new product is the same as opening for it directly. */
  lemma CloseThenCreate(e: Editor)
    ensures OpenModal(CloseModal(e), None) == OpenModal(e, None)
  {
  }

  /** `handleImageUpload`'s success path: the new URLs go at the end of both lists. */
  function UploadImages(e: Editor, newUrls: seq<string>): (r: Editor)
    ensures r.imageUrls == e.imageUrls + newUrls && r.form.images == e.form.images + newUrls
    ensures r.open == e.open && r.editing == e.editing && r.form == e.form.(images := r.form.images)
    ensures InSync(e) ==> InSync(r)
  {
    e.(imageUrls := e.imageUrls + newUrls, form := e.form.(images := e.form.images + newUrls))
  }

  /** `removeImage`: the image at `index` leaves both lists; the rest keep their order. */
  function RemoveImage(e: Editor, index: int): (r: Editor)
    ensures r.imageUrls == Lists.RemoveAt(e.imageUrls, index) && r.form.images == Lists.RemoveAt(e.form.images, index)
    ensures r.open == e.open && r.editing == e.editing && r.form == e.form.(images := r.form.images)
    ensures InSync(e) ==> InSync(r)
  {
    e.(imageUrls := Lists.RemoveAt(e.imageUrls, index), form := e.form.(images := Lists.RemoveAt(e.form.images, index)))
  }

  /** Uploading images and then removing the one just added, at the old end, gives back the editor's lists. */
  lemma UploadThenRemoveLast(e: Editor, url: string)
    ensures RemoveImage(UploadImages(e, [url]), |e.imageUrls|).imageUrls == e.imageUrls
  {
    var u := UploadImages(e, [url]).imageUrls;
    assert u[..|e.imageUrls|] == e.imageUrls;
  }

  /**
    A size or colour checkbox: checking appends the option, unchecking filters out every
    copy of it. The other options are kept either way.
   */
  function Toggle(options: seq<string>, option: string, checked: bool): (r: seq<string>)
    ensures checked ==> r == options + [option]
    ensures !checked ==> option !in r && r == Lists.Without(options, option)
    ensures forall o :: o != option ==> (o in r <==> o in options)
  {
    if checked then options + [option] else Lists.Without(options, option)
  }

  /** Checking and then unchecking an option that was not listed leaves the list as it was. */
  lemma ToggleOnOff(options: seq<string>, option: string)
    requires option !in options
    ensures Toggle(Toggle(options, option, true), option, false) == options
  {
    Lists.WithoutAppend(options, [option], option);
    assert Lists.Without([option], option) == [];
    Lists.WithoutAbsent(options, option);
  }

  /** `pieces.map(s => s.trim())` */
  function MapTrim(pieces: seq<string>): (r: seq<string>)
    ensures |r| == |pieces|
    ensures forall i :: 0 <= i < |r| ==> r[i] == Text.Trim(pieces[i])
  {
    if |pieces| == 0 then [] else [Text.Trim(pieces[0])] + MapTrim(pieces[1..])
  }

  /** `value.split(',').map(s => s.trim())`: one trimmed entry per comma-separated piece, empty pieces kept. */
  function SplitTrim(text: string): (r: seq<string>)
    ensures |r| == |Text.Split(text, ',')| && |r| >= 1
    ensures forall i :: 0 <= i < |r| ==> r[i] == Text.Trim(Text.Split(text, ',')[i])
  {
    MapTrim(Text.Split(text, ','))
  }

  /** `list.join(', ')`, the text the materials and care inputs show. */
  function DisplayJoin(parts: seq<string>): string
  {
    if |parts| == 0 then ""
    else if |parts| == 1 then parts[0]
    else parts[0] + ", " + DisplayJoin(parts[1..])
  }

  lemma TrimLeadingSpace(p: string)
    ensures Text.Trim([' '] + p) == Text.Trim(p)
  {
    assert ([' '] + p)[1..] == p;
  }

  lemma SplitTrimLeadingSpace(s: string)
    ensures SplitTrim([' '] + s) == SplitTrim(s)
  {
    var t := [' '] + s;
    assert t[1..] == s;
    var ps, pt := Text.Split(s, ','), Text.Split(t, ',');
    assert pt == [[' '] + ps[0]] + ps[1..];
    assert pt[1..] == ps[1..];
    TrimLeadingSpace(ps[0]);
  }

  lemma SplitTrimAfterPiece(a: string, b: string)
    requires ',' !in a
    ensures SplitTrim(a + [','] + b) == [Text.Trim(a)] + SplitTrim(b)
  {
    Text.SplitAfterPiece(a, ',', b);
    var pieces := [a] + Text.Split(b, ',');
    assert pieces[1..] == Text.Split(b, ',');
  }

  /** An entry that survives the display and the re-reading: trimmed and without a comma. */
  predicate CleanEntry(p: string)
  {
    ',' !in p && Text.Trim(p) == p
  }

  lemma DisplayStep(first: string, rest: string)
    requires CleanEntry(first)
    ensures SplitTrim(first + ", " + rest) == [first] + SplitTrim(rest)
  {
    var spaced := [' '] + rest;
    assert first + ", " + rest == first + [','] + spaced by {
      assert ", " == [','] + [' '];
    }
    SplitTrimAfterPiece(first, spaced);
    SplitTrimLeadingSpace(rest);
  }

  /** One step of the round trip: a clean entry in front of a list that reads back. */
  lemma DisplayConsStep(first: string, shown: string, tail: seq<string>)
    requires CleanEntry(first) && SplitTrim(shown) == tail
    ensures SplitTrim(first + ", " + shown) == [first] + tail
  {
    DisplayStep(first, shown);
  }

  /**
    Editing round trip: a list of entries that are already trimmed and contain no comma
    is shown joined with ", " and, if the field is left as it is, read back unchanged.
    An empty list is not: it comes back as one empty entry.
   */
  lemma {:induction false} DisplayRoundTrip(parts: seq<string>)
    requires |parts| >= 1
    requires forall i :: 0 <= i < |parts| ==> CleanEntry(parts[i])
    ensures SplitTrim(DisplayJoin(parts)) == parts
  {
    if |parts| == 1 {
      Text.SplitNoSeparator(parts[0], ',');
    } else {
      var tail := parts[1..];
      assert forall i :: 0 <= i < |tail| ==> tail[i] == parts[i + 1];
      DisplayRoundTrip(tail);
      DisplayConsStep(parts[0], DisplayJoin(tail), tail);
      assert [parts[0]] + tail == parts;
    }
  }

  lemma EmptyListNotRoundTripped()
    ensures SplitTrim(DisplayJoin([])) == [""]
  {
    assert Text.Trim("") == "";
  }

  datatype SubmitAction = UpdateProduct(id: string, form: ProductForm) | CreateProduct(form: ProductForm)

  /** `handleSubmit`: an update of the edited product, or a create when none is being edited. */
  function Submit(e: Editor): (r: SubmitAction)
    ensures e.editing.Some? <==> r.UpdateProduct?
    ensures r.form == e.form
    ensures r.UpdateProduct? ==> r.id == e.editing.value
  {
    match e.editing
    case Some(id) => UpdateProduct(id, e.form)
    case None => CreateProduct(e.form)
  }

  /** Opening an existing product and submitting it updates that product; opening for a new one creates. */
  lemma OpenThenSubmit(e: Editor, product: Option<StoredProduct>)
    ensures product.Some? ==> Submit(OpenModal(e, product)).UpdateProduct? && Submit(OpenModal(e, product)).id == product.value.id
    ensures product.None? ==> Submit(OpenModal(e, product)) == CreateProduct(InitialForm)
  {
  }
}
