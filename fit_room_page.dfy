/** The virtual fit room (`src/pages/FitRoomPage.tsx`): pick a model or
    upload a photo (never both), pick a garment, and show the preview. The
    uploaded photo is its data URL, `""` meaning none; the file reader is
    reduced to the data URL it produces. */
module FitRoom {
  import opened Wrappers
  import opened Catalog
  import Seqs

  datatype FitModel = FitModel(id: string, name: string, image: string)
  datatype Tab = Models | Upload

  const ClothingCategories: seq<string> := ["tees", "outerwear", "hoodies"]
  const OfferedCount: nat := 6

  function IsClothing(p: Product): bool {
    p.category in ClothingCategories
  }

  function ClothingProducts(catalog: seq<Product>): seq<Product> {
    Seqs.Filter(IsClothing, catalog)
  }

  /** The garments the page offers: the first six clothing products. */
  function OfferedProducts(catalog: seq<Product>): seq<Product> {
    Seqs.Take(ClothingProducts(catalog), OfferedCount)
  }

  lemma OfferedAreFirstClothing(catalog: seq<Product>)
    ensures forall p :: p in ClothingProducts(catalog) <==>
              p in catalog && (p.category == "tees" || p.category == "outerwear" || p.category == "hoodies")
    ensures Seqs.IsSubseq(OfferedProducts(catalog), catalog)
    ensures |OfferedProducts(catalog)| <= OfferedCount
    ensures forall p :: p in OfferedProducts(catalog) ==> p in ClothingProducts(catalog)
    ensures OfferedProducts(catalog) == ClothingProducts(catalog)[..|OfferedProducts(catalog)|]
    ensures forall p :: p in ClothingProducts(catalog) && p !in OfferedProducts(catalog) ==>
              |OfferedProducts(catalog)| == OfferedCount
  {
    Seqs.TakeFilterIsSubseq(IsClothing, catalog, OfferedCount);
    var c := ClothingProducts(catalog);
    forall p | p in OfferedProducts(catalog) ensures p in c {
      var k :| 0 <= k < |OfferedProducts(catalog)| && OfferedProducts(catalog)[k] == p;
      assert c[k] == p;
    }
  }

  class FitRoomPage {
    var selectedModel: Option<FitModel>
    var selectedProduct: Option<Product>
    var uploadedImage: string
    var showPreview: bool
    var selectedTab: Tab

    /** A model and an uploaded photo are never both set. */
    ghost predicate Valid()
      reads this
    {
      selectedModel.Some? ==> uploadedImage == ""
    }

    /** `selectedModel || uploadedImage`. */
    function HasPhoto(): bool
      reads this
    {
      selectedModel.Some? || uploadedImage != ""
    }

    /** The preview button's `disabled`. */
    function PreviewDisabled(): (b: bool)
      reads this
      ensures !b <==> (selectedModel.Some? || uploadedImage != "") && selectedProduct.Some?
    {
      !HasPhoto() || selectedProduct.None?
    }

    /** The preview pane renders exactly when the flag is set and a photo
        and a garment are chosen. */
    function PreviewShown(): (b: bool)
      reads this
      ensures b <==> showPreview && !PreviewDisabled()
    {
      showPreview && HasPhoto() && selectedProduct.Some?
    }

    constructor ()
      ensures Valid()
      ensures selectedModel == None && selectedProduct == None && uploadedImage == ""
      ensures !showPreview && selectedTab == Models
    {
      selectedModel := None;
      selectedProduct := None;
      uploadedImage := "";
      showPreview := false;
      selectedTab := Models;
    }

    method HandleModelSelect(model: FitModel)
      modifies this
      ensures Valid()
      ensures selectedModel == Some(model) && uploadedImage == ""
      ensures selectedProduct == old(selectedProduct) && showPreview == old(showPreview) && selectedTab == old(selectedTab)
    {
      selectedModel := Some(model);
      uploadedImage := "";
    }

    method HandleProductSelect(product: Product)
      requires Valid()
      modifies this
      ensures Valid()
      ensures selectedProduct == Some(product)
      ensures selectedModel == old(selectedModel) && uploadedImage == old(uploadedImage)
      ensures showPreview == old(showPreview) && selectedTab == old(selectedTab)
    {
      selectedProduct := Some(product);
    }

    /** The file input's change: with a file, its data URL replaces the
        model; without one nothing happens. */
    method HandleImageUpload(file: Option<string>)
      requires Valid()
      modifies this
      ensures Valid()
      ensures file.Some? ==> uploadedImage == file.value && selectedModel == None
      ensures file.None? ==> uploadedImage == old(uploadedImage) && selectedModel == old(selectedModel)
      ensures selectedProduct == old(selectedProduct) && showPreview == old(showPreview) && selectedTab == old(selectedTab)
    {
      if file.Some? {
        uploadedImage := file.value;
        selectedModel := None;
      }
    }

    /** "Choose Different Photo". */
    method ClearUpload()
      requires Valid()
      modifies this
      ensures Valid()
      ensures uploadedImage == ""
      ensures selectedModel == old(selectedModel) && selectedProduct == old(selectedProduct)
      ensures showPreview == old(showPreview) && selectedTab == old(selectedTab)
    {
      uploadedImage := "";
    }

    method HandleShowPreview()
      requires Valid()
      modifies this
      ensures Valid()
      ensures showPreview == (old(showPreview) || !old(PreviewDisabled()))
      ensures selectedModel == old(selectedModel) && selectedProduct == old(selectedProduct)
      ensures uploadedImage == old(uploadedImage) && selectedTab == old(selectedTab)
    {
      if HasPhoto() && selectedProduct.Some? {
        showPreview := true;
      }
    }

    method SelectTab(tab: Tab)
      requires Valid()
      modifies this
      ensures Valid()
      ensures selectedTab == tab
      ensures selectedModel == old(selectedModel) && selectedProduct == old(selectedProduct)
      ensures uploadedImage == old(uploadedImage) && showPreview == old(showPreview)
    {
      selectedTab := tab;
    }
  }

  /** Choosing a model, then a garment, then "Preview" shows the preview;
      a later upload swaps the model out for the photo. */
  method PreviewWithModelThenUpload(model: FitModel, product: Product, dataUrl: string) returns (page: FitRoomPage)
    requires dataUrl != ""
    ensures page.Valid() && page.PreviewShown()
    ensures page.selectedModel == None && page.uploadedImage == dataUrl
  {
    page := new FitRoomPage();
    page.HandleModelSelect(model);
    page.HandleProductSelect(product);
    page.HandleShowPreview();
    assert page.PreviewShown();
    page.HandleImageUpload(Some(dataUrl));
  }
}
