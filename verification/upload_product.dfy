/** The farmer's upload form (src/components/farmer/UploadProduct.tsx): an
    image list of at most five entries grown and shrunk by handlers, and a
    submit handler that runs its guards in order, appends a pending listing
    to the stored catalogue and resets the form. */
module UploadProduct {
  import opened Wrappers
  import opened Domain
  import opened Seqs
  import opened Catalog
  import opened Storage
  import opened Categories

  const MaxImages: nat := 5

  /** The form fields as typed; quantity and price are still text. */
  datatype UploadForm = UploadForm(
    name: string,
    category: string,
    quantity: string,
    unit: string,
    price: string,
    description: string,
    phone: string)

  /** The form as first shown and as reset after a successful upload. */
  function EmptyForm(user: User): UploadForm
  {
    UploadForm("", "", "", DefaultUnit, "", "", user.mobile)
  }

  /** The list without its `index`-th element; an index out of range removes
      nothing. */
  function RemoveAt<T>(s: seq<T>, index: int): (r: seq<T>)
    ensures 0 <= index < |s| ==> r == s[..index] + s[index + 1..]
    ensures !(0 <= index < |s|) ==> r == s
    decreases |s|
  {
    if s == [] then []
    else if index == 0 then s[1..]
    else
      var rest := RemoveAt(s[1..], index - 1);
      assert 0 < index < |s| ==> s[..index] + s[index + 1..] == [s[0]] + (s[1..][..index - 1] + s[1..][index..]);
      [s[0]] + rest
  }

  datatype UploadError = NoImages | MissingFields

  /** The guards of `handleSubmit`, in order: at least one image, then every
      required field non-empty. */
  function ValidateUpload(form: UploadForm, images: seq<string>): (r: Option<UploadError>)
    ensures r == Some(NoImages) <==> images == []
    ensures r == None <==>
      (images != [] && form.name != "" && form.category != "" &&
       form.quantity != "" && form.price != "" && form.description != "")
  {
    if images == [] then Some(NoImages)
    else if form.name == "" || form.category == "" || form.quantity == "" || form.price == "" || form.description == "" then
      Some(MissingFields)
    else None
  }

  /** The listing `handleSubmit` creates; `parse` stands for `parseFloat`. */
  function NewProduct(user: User, form: UploadForm, images: seq<string>, id: string, now: int,
                      parse: string -> int): (p: Product)
    ensures p.status == Pending && p.featured == None
    ensures p.id == id && p.uploadedAt == now
    ensures p.farmerId == user.id && p.farmerName == user.fullName && p.location == user.location
    ensures p.images == images
    ensures p.name == form.name && p.category == form.category && p.description == form.description
    ensures p.unit == form.unit && p.farmerPhone == form.phone
    ensures p.quantity == parse(form.quantity) && p.price == parse(form.price)
  {
    Product(id, user.id, user.fullName, form.phone, form.name, form.category, parse(form.quantity),
            form.unit, parse(form.price), form.description, images, user.location, Pending, now, None)
  }

  /** An upload lands at the end of the farmer's own list and in the admin
      pending queue, and leaves the consumer-visible verified list as it was. */
  lemma {:induction false} UploadReachesModeration(ps: seq<Product>, p: Product)
    requires p.status == Pending
    ensures OwnedBy(ps + [p], p.farmerId) == OwnedBy(ps, p.farmerId) + [p]
    ensures p in WithStatus(ps + [p], Pending)
    ensures WithStatus(ps + [p], Verified) == WithStatus(ps, Verified)
  {
    FilterAppend(ps, [p], OwnedByPred(p.farmerId));
    FilterAppend(ps, [p], StatusIs(Verified));
    assert Filter([p], OwnedByPred(p.farmerId)) == [p];
    assert Filter([p], StatusIs(Verified)) == [];
  }

  class UploadProduct {
    const user: User
    const store: Store
    var form: UploadForm
    var images: seq<string>

    ghost predicate Valid()
      reads this
    {
      |images| <= MaxImages
    }

    constructor (user: User, store: Store)
      ensures Valid()
      ensures this.user == user && this.store == store
      ensures form == EmptyForm(user) && images == []
    {
      this.user, this.store := user, store;
      form := EmptyForm(user);
      images := [];
    }

    /** The user edits the form. */
    method SetForm(f: UploadForm)
      modifies this`form
      ensures form == f
    {
      form := f;
    }

    /** `handleImageUpload` with the selected files already read: a selection
        that would take the list past five images is refused whole. */
    method HandleImageUpload(files: seq<string>) returns (accepted: bool)
      requires Valid()
      modifies this`images
      ensures Valid()
      ensures accepted <==> |old(images)| + |files| <= MaxImages
      ensures images == if accepted then old(images) + files else old(images)
    {
      accepted := |images| + |files| <= MaxImages;
      if accepted {
        images := images + files;
      }
    }

    /** `removeImage`. */
    method RemoveImage(index: int)
      requires Valid()
      modifies this`images
      ensures Valid()
      ensures images == RemoveAt(old(images), index)
    {
      images := RemoveAt(images, index);
    }

    /** `handleSubmit`: a failed guard reports its error and stores nothing;
        otherwise the new pending listing is appended to the stored catalogue
        and the form and image list are reset. */
    method HandleSubmit(id: string, now: int, parse: string -> int) returns (r: Result<Product, UploadError>)
      requires Valid()
      modifies this`form, this`images, store`products
      ensures Valid()
      ensures ValidateUpload(old(form), old(images)).Some? ==>
        r == Err(ValidateUpload(old(form), old(images)).value) &&
        form == old(form) && images == old(images) && store.products == old(store.products)
      ensures ValidateUpload(old(form), old(images)).None? ==>
        r == Ok(NewProduct(user, old(form), old(images), id, now, parse)) &&
        store.products == old(store.products) + [r.value] &&
        form == EmptyForm(user) && images == []
    {
      var check := ValidateUpload(form, images);
      if check.Some? {
        return Err(check.value);
      }
      var p := NewProduct(user, form, images, id, now, parse);
      store.products := store.products + [p];
      form := EmptyForm(user);
      images := [];
      r := Ok(p);
    }
  }
}
