/** The constant tables of src/constants/categories.ts: product categories,
    units, and the label/colour tables for order and product statuses. */
module Categories {
  import opened Wrappers
  import opened Domain

  datatype CategoryEntry = CategoryEntry(value: string, labelText: string)

  /** `PRODUCT_CATEGORIES` (icons are display-only and left out). */
  const ProductCategories: seq<CategoryEntry> := [
    CategoryEntry("vegetables", "Vegetables"),
    CategoryEntry("fruits", "Fruits"),
    CategoryEntry("grains", "Grains & Cereals"),
    CategoryEntry("dairy", "Dairy Products"),
    CategoryEntry("pulses", "Pulses & Lentils"),
    CategoryEntry("spices", "Spices & Herbs"),
    CategoryEntry("honey", "Honey & Bee Products"),
    CategoryEntry("eggs", "Eggs & Poultry"),
    CategoryEntry("flowers", "Flowers & Plants"),
    CategoryEntry("other", "Other Products")
  ]

  /** `UNITS`. */
  const Units: seq<string> := ["kg", "gram", "liter", "ml", "dozen", "piece", "bunch", "bag"]

  /** The unit an upload form starts with and is reset to. */
  const DefaultUnit: string := "kg"

  datatype StatusStyle = StatusStyle(labelText: string, color: string)

  /** `ORDER_STATUS`, as (key, style) entries in declaration order. */
  const OrderStatusTable: seq<(string, StatusStyle)> := [
    ("pending", StatusStyle("Pending", "orange")),
    ("confirmed", StatusStyle("Confirmed", "blue")),
    ("delivered", StatusStyle("Delivered", "green")),
    ("cancelled", StatusStyle("Cancelled", "red"))
  ]

  /** `PRODUCT_STATUS`, as (key, style) entries in declaration order. */
  const ProductStatusTable: seq<(string, StatusStyle)> := [
    ("pending", StatusStyle("Pending Approval", "orange")),
    ("verified", StatusStyle("Verified", "green")),
    ("rejected", StatusStyle("Rejected", "red")),
    ("sold", StatusStyle("Sold Out", "gray"))
  ]

  /** `TABLE[key]`: the style stored under `key`, if any. */
  function Lookup(table: seq<(string, StatusStyle)>, key: string): (r: Option<StatusStyle>)
    ensures r.Some? <==> exists i :: 0 <= i < |table| && table[i].0 == key
    ensures r.Some? ==> (key, r.value) in table
    decreases |table|
  {
    if table == [] then None
    else if table[0].0 == key then Some(table[0].1)
    else
      var r := Lookup(table[1..], key);
      assert forall i :: 1 <= i < |table| ==> table[i] == table[1..][i - 1];
      r
  }

  predicate DistinctStrings(s: seq<string>)
  {
    forall i, j :: 0 <= i < j < |s| ==> s[i] != s[j]
  }

  function CategoryValues(cs: seq<CategoryEntry>): (r: seq<string>)
    ensures |r| == |cs|
    ensures forall i :: 0 <= i < |cs| ==> r[i] == cs[i].value
  {
    seq(|cs|, i requires 0 <= i < |cs| => cs[i].value)
  }

  /** No two categories share a `value`, so a category filter selects one entry. */
  lemma CategoryValuesDistinct()
    ensures DistinctStrings(CategoryValues(ProductCategories))
  {
  }

  /** The units are distinct and include the default upload unit. */
  lemma UnitsDistinctWithDefault()
    ensures DistinctStrings(Units)
    ensures DefaultUnit in Units
  {
  }

  /** The keys of a status table, in declaration order. */
  function Keys(table: seq<(string, StatusStyle)>): (r: seq<string>)
    ensures |r| == |table|
    ensures forall i :: 0 <= i < |table| ==> r[i] == table[i].0
  {
    seq(|table|, i requires 0 <= i < |table| => table[i].0)
  }

  /** The keys of `PRODUCT_STATUS` are exactly the four product statuses. */
  lemma ProductStatusKeys()
    ensures Keys(ProductStatusTable) == [StatusKey(Pending), StatusKey(Verified), StatusKey(Rejected), StatusKey(Sold)]
  {
  }

  /** `PRODUCT_STATUS[status]` is defined for every product status. */
  lemma ProductStatusHasStyle(s: ProductStatus)
    ensures Lookup(ProductStatusTable, StatusKey(s)).Some?
  {
    var k := match s case Pending => 0 case Verified => 1 case Rejected => 2 case Sold => 3;
    assert ProductStatusTable[k].0 == StatusKey(s);
  }

  /** The keys of `ORDER_STATUS` are exactly the four order statuses. */
  lemma OrderStatusKeys()
    ensures Keys(OrderStatusTable) ==
      [OrderStatusKey(OrderPending), OrderStatusKey(Confirmed), OrderStatusKey(Delivered), OrderStatusKey(Cancelled)]
  {
  }

  /** `ORDER_STATUS[status]` is defined for every order status. */
  lemma OrderStatusHasStyle(s: OrderStatus)
    ensures Lookup(OrderStatusTable, OrderStatusKey(s)).Some?
  {
    var k := match s case OrderPending => 0 case Confirmed => 1 case Delivered => 2 case Cancelled => 3;
    assert OrderStatusTable[k].0 == OrderStatusKey(s);
  }

  /** `PRODUCT_STATUS[status].label`, the badge text of a listing. */
  function ProductStatusLabel(s: ProductStatus): (labelText: string)
    ensures (StatusKey(s), StatusStyle(labelText, Lookup(ProductStatusTable, StatusKey(s)).value.color)) in ProductStatusTable
  {
    ProductStatusHasStyle(s);
    Lookup(ProductStatusTable, StatusKey(s)).value.labelText
  }
}
