/**
 * The admin product form (src/components/admin/ProductForm.tsx): it holds
 * the form's text fields, the product's stored image URLs, and the newly
 * chosen files with one preview URL per file, and hands the fields and the
 * new files to its owner on submit.
 */
module ProductForm {
  import opened Wrappers
  import opened Types
  import opened JsNumbers
  import opened JsArrays

  /** The form's fields; numbers are kept as the text of their inputs. */
  datatype ProductFormData = ProductFormData(
    name: string,
    description: string,
    metal_type: string,
    purity: string,
    weight: string,
    making_charge_type: string,
    making_charge_value: string,
    stock: string,
    is_featured: bool)

  /** A file the user picked. */
  datatype File = File(name: string)

  /** The fields of a new product's form. */
  const DefaultForm := ProductFormData("", "", "gold", "22K", "", "percentage", "", "", false)

  /** The fields loaded from a stored product; `numberText` is `Number.prototype.toString` for its two decimal numbers. */
  function FormOf(product: Product, numberText: real -> string): (f: ProductFormData)
    ensures f.name == product.name && f.metal_type == product.metal_type && f.purity == product.purity
    ensures f.making_charge_type == product.making_charge_type && f.is_featured == product.is_featured
    ensures product.description.Some? ==> f.description == product.description.value
    ensures product.description.None? ==> f.description == ""
    ensures f.weight == numberText(product.weight) && f.making_charge_value == numberText(product.making_charge_value)
    ensures NumberOf(f.stock) == Finite(product.stock as real)
  {
    NumberOfIntToString(product.stock);
    ProductFormData(
      product.name,
      product.description.GetOr(""),
      product.metal_type,
      product.purity,
      numberText(product.weight),
      product.making_charge_type,
      numberText(product.making_charge_value),
      IntToString(product.stock),
      product.is_featured)
  }

  /** `filesArray.map(file => URL.createObjectURL(file))` */
  function Previews(files: seq<File>, objectUrl: File -> string): (urls: seq<string>)
    ensures |urls| == |files|
    ensures forall i :: 0 <= i < |files| ==> urls[i] == objectUrl(files[i])
  {
    if files == [] then [] else Previews(files[..|files| - 1], objectUrl) + [objectUrl(files[|files| - 1])]
  }

  function NotUrl(url: string): string -> bool {
    (img: string) => img != url
  }

  /** Removing a stored image drops every copy of its URL and keeps the others in order. */
  lemma RemovedEverywhere(existing: seq<string>, url: string)
    ensures url !in Filter(NotUrl(url), existing)
    ensures forall x :: x in Filter(NotUrl(url), existing) <==> x in existing && x != url
    ensures IsSubsequence(Filter(NotUrl(url), existing), existing)
  {
    FilterMembership(NotUrl(url), existing, url);
    forall x
      ensures x in Filter(NotUrl(url), existing) <==> x in existing && x != url
    {
      FilterMembership(NotUrl(url), existing, x);
    }
    FilterIsSubsequence(NotUrl(url), existing);
  }

  /** The form's state and the calls it made to its owner. */
  class ProductFormState {
    var formData: ProductFormData
    /** The new files, and at the same index the preview URL of each. */
    var images: seq<File>
    var imagePreviews: seq<string>
    /** The URLs of the images the product already has. */
    var existingImages: seq<string>
    /** The URLs passed to `onDeleteImage`, oldest first. */
    var deleteCalls: seq<string>
    /** The arguments passed to `onSubmit`, oldest first. */
    var submissions: seq<(ProductFormData, seq<File>)>

    /** Every new file has its preview at the same index. */
    predicate Valid()
      reads this
    {
      |images| == |imagePreviews|
    }

    constructor ()
      ensures Valid()
      ensures formData == DefaultForm && images == [] && imagePreviews == [] && existingImages == []
      ensures deleteCalls == [] && submissions == []
    {
      formData := DefaultForm;
      images, imagePreviews, existingImages := [], [], [];
      deleteCalls, submissions := [], [];
    }

    /** The effect run for `initialData`: the fields are loaded, and the stored images when there are any. */
    method LoadInitialData(product: Product, numberText: real -> string)
      modifies this
      ensures formData == FormOf(product, numberText)
      ensures product.images.Some? ==> existingImages == product.images.value
      ensures product.images.None? ==> existingImages == old(existingImages)
      ensures images == old(images) && imagePreviews == old(imagePreviews)
      ensures deleteCalls == old(deleteCalls) && submissions == old(submissions)
    {
      formData := FormOf(product, numberText);
      if product.images.Some? {
        existingImages := product.images.value;
      }
    }

    /** `handleImageChange`: the chosen files and one preview each are appended to the two lists. */
    method AddImages(files: Option<seq<File>>, objectUrl: File -> string)
      requires Valid()
      modifies this
      ensures Valid()
      ensures files.Some? ==> images == old(images) + files.value
      ensures files.Some? ==> imagePreviews == old(imagePreviews) + Previews(files.value, objectUrl)
      ensures files.None? ==> images == old(images) && imagePreviews == old(imagePreviews)
      ensures formData == old(formData) && existingImages == old(existingImages)
      ensures deleteCalls == old(deleteCalls) && submissions == old(submissions)
    {
      if files.Some? {
        images := images + files.value;
        imagePreviews := imagePreviews + Previews(files.value, objectUrl);
      }
    }

    /** `removeNewImage(index)`: the same position leaves both lists, so they stay aligned. */
    method RemoveNewImage(index: int)
      requires Valid()
      modifies this
      ensures Valid()
      ensures images == RemoveAt(old(images), index) && imagePreviews == RemoveAt(old(imagePreviews), index)
      ensures formData == old(formData) && existingImages == old(existingImages)
      ensures deleteCalls == old(deleteCalls) && submissions == old(submissions)
    {
      images := RemoveAt(images, index);
      imagePreviews := RemoveAt(imagePreviews, index);
    }

    /**
     * `handleRemoveExistingImage(url)`, given the user's answer to the
     * confirmation, whether the owner passed `onDeleteImage` and whether
     * that call completed. The URL leaves the stored list only when all three hold.
     */
    method RemoveExistingImage(url: string, confirmed: bool, hasOnDelete: bool, deleteOk: bool)
      modifies this
      ensures confirmed && hasOnDelete ==> deleteCalls == old(deleteCalls) + [url]
      ensures !(confirmed && hasOnDelete) ==> deleteCalls == old(deleteCalls)
      ensures confirmed && hasOnDelete && deleteOk ==> existingImages == Filter(NotUrl(url), old(existingImages))
      ensures !(confirmed && hasOnDelete && deleteOk) ==> existingImages == old(existingImages)
      ensures formData == old(formData) && images == old(images) && imagePreviews == old(imagePreviews)
      ensures submissions == old(submissions)
    {
      if confirmed && hasOnDelete {
        deleteCalls := deleteCalls + [url];
        if deleteOk {
          existingImages := Filter(NotUrl(url), existingImages);
        }
      }
    }

    /** `handleSubmit`: the owner gets the current fields and the new files only. */
    method Submit()
      modifies this
      ensures submissions == old(submissions) + [(formData, images)]
      ensures formData == old(formData) && images == old(images) && imagePreviews == old(imagePreviews)
      ensures existingImages == old(existingImages) && deleteCalls == old(deleteCalls)
    {
      submissions := submissions + [(formData, images)];
    }
  }
}
