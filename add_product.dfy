/**
  The add-product form (src/screens/products/AddProductScreen.js): which field a typed name
  goes to, what choosing a suggested product copies, how loaded suggestions are merged, and
  the required-field guard with the numeric defaults of the request.
 */
module AddProduct {

  import opened Wrappers
  import opened JsValues
  import opened Autocomplete

  /** The suggestion lists: categories, and products (objects with name, category, unit). */
  datatype Attributes = Attributes(categories: seq<Item>, products: seq<Item>)

  /** The request body of a new product. `sellingPrice` may be NaN: it has no default. */
  datatype NewProduct = NewProduct(
    name: string,
    category: string,
    unit: string,
    purchasePrice: real,
    sellingPrice: JsNumber,
    currentStock: real,
    minStockLevel: real)

  datatype ProductFormError = MissingRequired

  /**
    `handleSubmit`: any of name, category, unit or selling price left empty refuses; otherwise
    the request carries the texts as typed, `parseFloat(...) || 0` for purchase price, stock
    and minimum level, and plain `parseFloat` for the selling price.
   */
  function CheckNewProduct(name: string, category: string, unit: string, purchasePrice: NumText,
                           sellingPrice: NumText, currentStock: NumText, minStockLevel: NumText)
    : (r: Result<NewProduct, ProductFormError>)
    ensures r.Failure? <==> name == "" || category == "" || unit == "" || sellingPrice.EmptyText?
    ensures r.Success? ==>
      && r.value.name == name && r.value.category == category && r.value.unit == unit
      && r.value.sellingPrice == ParseFloat(sellingPrice)
      && r.value.purchasePrice == CoerceFloat(purchasePrice)
      && r.value.currentStock == CoerceFloat(currentStock)
      && r.value.minStockLevel == CoerceFloat(minStockLevel)
    ensures r.Success? && (purchasePrice.EmptyText? || purchasePrice.NonNumeric?) ==> r.value.purchasePrice == 0.0
    ensures r.Success? && (currentStock.EmptyText? || currentStock.NonNumeric?) ==> r.value.currentStock == 0.0
    ensures r.Success? && (minStockLevel.EmptyText? || minStockLevel.NonNumeric?) ==> r.value.minStockLevel == 0.0
  {
    if name == "" || category == "" || unit == "" || sellingPrice.EmptyText? then
      Failure(MissingRequired)
    else
      Success(NewProduct(name, category, unit, CoerceFloat(purchasePrice), ParseFloat(sellingPrice),
                         CoerceFloat(currentStock), CoerceFloat(minStockLevel)))
  }

  /** A non-numeric selling price is not refused; it is sent as NaN. */
  lemma NonNumericSellingPriceSent()
    ensures CheckNewProduct("Cement", "Building", "Bag", EmptyText, NonNumeric, EmptyText, EmptyText)
         == Success(NewProduct("Cement", "Building", "Bag", 0.0, NaN, 0.0, 0.0))
  {
  }

  /**
    The merge after suggestions load: key `"category"` replaces the categories, any other key
    the products; the other list is kept.
   */
  function MergeAttributes(prev: Attributes, key: string, data: seq<Item>): (r: Attributes)
    ensures key == "category" ==> r.categories == data && r.products == prev.products
    ensures key != "category" ==> r.products == data && r.categories == prev.categories
  {
    if key == "category" then prev.(categories := data) else prev.(products := data)
  }

  /** A JavaScript string field is truthy: present and not empty. */
  predicate Present(s: Option<string>)
  {
    s.Some? && s.value != ""
  }

  /** `attributes.products.find(p => p.name === name)`: the first product object so named. */
  function ProductNamed(products: seq<Item>, name: string): (r: Option<Item>)
    ensures r.Some? ==> r.value in products && r.value.Entry? && r.value.name == Some(name)
    ensures r.None? ==> forall p | p in products :: !(p.Entry? && p.name == Some(name))
  {
    match FindIndex(products, (p: Item) => p.Entry? && p.name == Some(name))
    case None => None
    case Some(i) => Some(products[i])
  }

  /**
    The product `handleProductSelect` works with: a string is looked up by exact name, an
    object is used as it is, a falsy value gives nothing.
   */
  function SelectedProduct(attrs: Attributes, picked: Item): (r: Option<Item>)
    ensures picked.Text? ==> r == ProductNamed(attrs.products, picked.s)
    ensures picked.Entry? ==> r == Some(picked)
    ensures picked.Falsy? ==> r.None?
  {
    match picked
    case Text(s) => ProductNamed(attrs.products, s)
    case Entry(_, _, _) => Some(picked)
    case Falsy => None
  }

  class ProductForm {
    var name: string
    var category: string
    var unit: string
    var purchasePrice: NumText
    var sellingPrice: NumText
    var currentStock: NumText
    var minStockLevel: NumText
    var attributes: Attributes

    /** Every field empty, no suggestions. */
    constructor ()
      ensures name == "" && category == "" && unit == ""
      ensures purchasePrice == EmptyText && sellingPrice == EmptyText
      ensures currentStock == EmptyText && minStockLevel == EmptyText
      ensures attributes == Attributes([], [])
    {
      name, category, unit := "", "", "";
      purchasePrice, sellingPrice := EmptyText, EmptyText;
      currentStock, minStockLevel := EmptyText, EmptyText;
      attributes := Attributes([], []);
    }

    /** `handleNameChange`: key `"product"` sets only the name, key `"category"` only the category. */
    method HandleNameChange(text: string, key: string)
      modifies this
      ensures name == (if key == "product" then text else old(name))
      ensures category == (if key == "category" then text else old(category))
      ensures unit == old(unit) && attributes == old(attributes)
      ensures purchasePrice == old(purchasePrice) && sellingPrice == old(sellingPrice)
      ensures currentStock == old(currentStock) && minStockLevel == old(minStockLevel)
    {
      if key == "product" {
        name := text;
      } else if key == "category" {
        category := text;
      }
    }

    /**
      `handleProductSelect`: the unit and the category of the selected product are copied when
      they are present and non-empty; the name is never touched.
     */
    method HandleProductSelect(picked: Item)
      modifies this
      ensures var p := SelectedProduct(old(attributes), picked);
        && unit == (if p.Some? && p.value.Entry? && Present(p.value.unit) then p.value.unit.value else old(unit))
        && category == (if p.Some? && p.value.Entry? && Present(p.value.category) then p.value.category.value else old(category))
      ensures name == old(name) && attributes == old(attributes)
      ensures purchasePrice == old(purchasePrice) && sellingPrice == old(sellingPrice)
      ensures currentStock == old(currentStock) && minStockLevel == old(minStockLevel)
    {
      var p := SelectedProduct(attributes, picked);
      if p.Some? && p.value.Entry? {
        if Present(p.value.unit) {
          unit := p.value.unit.value;
        }
        if Present(p.value.category) {
          category := p.value.category.value;
        }
      }
    }

    /** `loadAttributes` on a reply: merged only when it succeeded and carries data. */
    method AttributesLoaded(key: string, success: bool, data: Option<seq<Item>>)
      modifies this
      ensures attributes == if success && data.Some? then MergeAttributes(old(attributes), key, data.value) else old(attributes)
      ensures name == old(name) && category == old(category) && unit == old(unit)
      ensures purchasePrice == old(purchasePrice) && sellingPrice == old(sellingPrice)
      ensures currentStock == old(currentStock) && minStockLevel == old(minStockLevel)
    {
      if success && data.Some? {
        attributes := MergeAttributes(attributes, key, data.value);
      }
    }

    /** `handleSubmit` up to the dispatch; it changes nothing on the form. */
    method Submit() returns (r: Result<NewProduct, ProductFormError>)
      ensures r == CheckNewProduct(name, category, unit, purchasePrice, sellingPrice, currentStock, minStockLevel)
    {
      r := CheckNewProduct(name, category, unit, purchasePrice, sellingPrice, currentStock, minStockLevel);
    }
  }
}
