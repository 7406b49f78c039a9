// CartItemUI: one row of the cart. The row holds a reference to the cart's
// own ProductData line (not a copy), so its quantity buttons change the
// line the cart dictionary holds, and only then announce the change.
module CartItemView {
  import opened Wrappers
  import opened Products
  import opened DotNetText

  /** The two UnityEvents a row raises. */
  datatype CartEvent =
    | QuantityChanged(productId: Option<string>, quantity: int)
    | RemovedFromCart(productId: Option<string>)

  class CartItemUI {
    var line: ProductData?
    /** quantityText.text and the amount behind subtotalText.text. */
    var quantityShown: string
    var subtotalShown: int

    constructor()
      ensures line == null
    {
      line := null;
      quantityShown := "";
      subtotalShown := 0;
    }

    /** The labels agree with the line they show. */
    predicate ShowsLine()
      requires line != null
      reads this, line
    {
      quantityShown == LongToString(line.product.stock)
      && subtotalShown == line.product.price * line.product.stock
    }

    /** SetCartItemData keeps the reference it is given. */
    method SetCartItemData(data: ProductData)
      modifies this
      ensures line == data
      ensures ShowsLine()
    {
      line := data;
      quantityShown := LongToString(data.product.stock);
      subtotalShown := data.product.price * data.product.stock;
    }

    /** The + button: one more of this product, then QuantityChanged. */
    method OnIncreaseQuantity() returns (e: CartEvent)
      requires line != null
      modifies this, line
      ensures line == old(line)
      ensures line.product == old(line.product).(stock := old(line.product.stock) + 1)
      ensures ShowsLine()
      ensures e == QuantityChanged(line.product.productId, line.product.stock)
    {
      line.product := line.product.(stock := line.product.stock + 1);
      quantityShown := LongToString(line.product.stock);
      subtotalShown := line.product.price * line.product.stock;
      e := QuantityChanged(line.product.productId, line.product.stock);
    }

    /** The - button: one fewer; at zero or below the row asks to be
        removed and its labels are left as they were. */
    method OnDecreaseQuantity() returns (e: CartEvent)
      requires line != null
      modifies this, line
      ensures line == old(line)
      ensures line.product == old(line.product).(stock := old(line.product.stock) - 1)
      ensures line.product.stock <= 0 ==>
                e == RemovedFromCart(line.product.productId)
                && quantityShown == old(quantityShown) && subtotalShown == old(subtotalShown)
      ensures line.product.stock > 0 ==>
                e == QuantityChanged(line.product.productId, line.product.stock) && ShowsLine()
    {
      line.product := line.product.(stock := line.product.stock - 1);
      if line.product.stock <= 0 {
        e := RemovedFromCart(line.product.productId);
      } else {
        quantityShown := LongToString(line.product.stock);
        subtotalShown := line.product.price * line.product.stock;
        e := QuantityChanged(line.product.productId, line.product.stock);
      }
    }

    /** The remove button changes nothing and asks for removal. */
    method OnRemoveItem() returns (e: CartEvent)
      requires line != null
      ensures e == RemovedFromCart(line.product.productId)
    {
      e := RemovedFromCart(line.product.productId);
    }
  }
}
