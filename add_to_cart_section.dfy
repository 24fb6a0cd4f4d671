/** The size, colour and quantity pickers of the product page and the
    add-to-bag button that sends their values to the cart provider. The
    success banner's timeout is not modelled. */
module AddToCartSection {
  import opened Models
  import opened CartContext

  /** `product.colors?.[0] || ''`. */
  function DefaultColor(colors: seq<string>): (r: string)
    ensures |colors| > 0 ==> r == colors[0]
    ensures |colors| == 0 ==> r == ""
  {
    if |colors| > 0 && colors[0] != "" then colors[0] else ""
  }

  /** `Math.max(1, quantity - 1)`. */
  function Decremented(q: int): (r: int)
    ensures r >= 1
    ensures q > 1 ==> r == q - 1
    ensures q <= 1 ==> r == 1
  {
    if 1 > q - 1 then 1 else q - 1
  }

  lemma {:induction false} DecrementUndoesIncrement(q: int)
    requires q >= 1
    ensures Decremented(q + 1) == q
  {
  }

  /** The stepper's two buttons. */
  datatype Step = Minus | Plus

  function Press(q: int, steps: seq<Step>): (r: int)
    decreases |steps|
  {
    if steps == [] then q
    else Press(if steps[0] == Minus then Decremented(q) else q + 1, steps[1..])
  }

  /** From a quantity of at least 1, any sequence of presses keeps it at
      least 1, and it never drops by more than the number of presses. */
  lemma {:induction false} PressesStayPositive(q: int, steps: seq<Step>)
    requires q >= 1
    ensures Press(q, steps) >= 1
    ensures Press(q, steps) >= q - |steps|
    decreases |steps|
  {
    if steps != [] {
      var next := if steps[0] == Minus then Decremented(q) else q + 1;
      PressesStayPositive(next, steps[1..]);
    }
  }

  /** `!selectedSize && product.sizes?.length > 0`: the product offers sizes
      and none is picked. */
  predicate SizeMissing(selectedSize: string, sizes: seq<string>) {
    selectedSize == "" && |sizes| > 0
  }

  class AddToCartForm {
    const product: Product
    var selectedSize: string
    var selectedColor: string
    var quantity: int
    var adding: bool
    var success: bool

    ghost predicate Valid()
      reads this
    {
      quantity >= 1
    }

    /** No size picked, the first colour picked, a quantity of one. */
    constructor (p: Product)
      ensures Valid() && product == p
      ensures selectedSize == "" && selectedColor == DefaultColor(p.colors) && quantity == 1
      ensures !adding && !success
    {
      product := p;
      selectedSize := "";
      selectedColor := DefaultColor(p.colors);
      quantity := 1;
      adding := false;
      success := false;
    }

    method SelectSize(size: string)
      modifies this
      ensures selectedSize == size
      ensures selectedColor == old(selectedColor) && quantity == old(quantity)
      ensures adding == old(adding) && success == old(success)
    {
      selectedSize := size;
    }

    method SelectColor(color: string)
      modifies this
      ensures selectedColor == color
      ensures selectedSize == old(selectedSize) && quantity == old(quantity)
      ensures adding == old(adding) && success == old(success)
    {
      selectedColor := color;
    }

    /** The minus button: one less, but never below 1. */
    method Decrement()
      requires Valid()
      modifies this
      ensures Valid() && quantity == Decremented(old(quantity))
      ensures selectedSize == old(selectedSize) && selectedColor == old(selectedColor)
      ensures adding == old(adding) && success == old(success)
    {
      quantity := if 1 > quantity - 1 then 1 else quantity - 1;
    }

    /** The plus button: exactly one more. */
    method Increment()
      requires Valid()
      modifies this
      ensures Valid() && quantity == old(quantity) + 1
      ensures selectedSize == old(selectedSize) && selectedColor == old(selectedColor)
      ensures adding == old(adding) && success == old(success)
    {
      quantity := quantity + 1;
    }

    /** `handleAddToCart`, pressed while the button is enabled (`disabled={adding}`):
        refused without a size when the product has sizes; otherwise the
        provider's `addToCart` is called with the product and the picked
        size, colour and quantity (`reply` is what its POST settles to), and
        the banner is switched on only when it returns true. `sent` is the
        request body the provider posts, if any. */
    method HandleAddToCart(cart: CartProvider, reply: Reply<CartJson>)
      returns (called: bool, sent: Option<AddRequest>)
      requires Valid() && !adding
      modifies this, cart
      ensures Valid()
      ensures selectedSize == old(selectedSize) && selectedColor == old(selectedColor)
      ensures quantity == old(quantity) && !adding
      ensures called <==> !SizeMissing(selectedSize, product.sizes)
      ensures !called ==>
        && sent.None?
        && success == old(success) && cart.cart == old(cart.cart) && cart.status == old(cart.status)
      ensures called ==>
        && cart.status == old(cart.status)
        && (old(cart.status) == Authenticated ==>
              sent == Some(AddRequest(product.id, quantity, selectedSize, selectedColor)))
        && (old(cart.status) != Authenticated ==> sent.None?)
        && (old(cart.status) == Authenticated && reply.Fulfilled? ==> success)
        && (old(cart.status) != Authenticated || reply.Rejected? ==> success == old(success))
        && (old(cart.status) == Authenticated && reply.Fulfilled? ==> cart.cart == reply.data)
        && (old(cart.status) != Authenticated || reply.Rejected? ==> cart.cart == old(cart.cart))
    {
      if selectedSize == "" && |product.sizes| > 0 {
        return false, None;
      }
      adding := true;
      var result;
      sent, result := cart.AddToCart(product.id, quantity, selectedSize, selectedColor, reply);
      adding := false;
      if result == Some(true) {
        success := true;
      }
      called := true;
    }
  }
}
