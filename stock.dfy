/** The stock badge shown next to an item, in the item editor and on the shop page alike. */
module Stock {

  datatype StockLabel = InStock | Limited | OutOfStock

  /** `quantity > 10 ? 'In Stock' : quantity > 0 ? 'Limited' : 'Out of Stock'`. */
  function StockLabelOf(quantity: int): StockLabel
  {
    if quantity > 10 then InStock else if quantity > 0 then Limited else OutOfStock
  }

  /** The three labels partition the integers into `> 10`, `1..10` and `<= 0`. */
  lemma StockLabelCases(quantity: int)
    ensures StockLabelOf(quantity) == InStock <==> quantity > 10
    ensures StockLabelOf(quantity) == Limited <==> 0 < quantity <= 10
    ensures StockLabelOf(quantity) == OutOfStock <==> quantity <= 0
  {
  }

  /** The label never decreases as the quantity grows. */
  lemma StockLabelMonotone(q1: int, q2: int)
    requires q1 <= q2
    ensures StockLabelOf(q1) == InStock ==> StockLabelOf(q2) == InStock
    ensures StockLabelOf(q2) == OutOfStock ==> StockLabelOf(q1) == OutOfStock
  {
  }

  /** The label as displayed. */
  function LabelText(l: StockLabel): (t: string)
    ensures t in {"In Stock", "Limited", "Out of Stock"}
  {
    match l
    case InStock => "In Stock"
    case Limited => "Limited"
    case OutOfStock => "Out of Stock"
  }
}
