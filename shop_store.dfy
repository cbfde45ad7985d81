// The shop store: the cart (one entry per product with its quantity), the
// cart and checkout panels' flags, the checkout step and the checkout form.
// Prices are whole cents.

module Shop {
  import opened Wrappers
  import Seqs

  datatype Product = Product(
    id: int, name: string, brand: string, price: nat, salePrice: Option<nat>,
    image: string, category: string, bestseller: bool, isNew: bool, inStock: bool)

  datatype CartItem = CartItem(product: Product, quantity: int)

  /** The price a shopper pays: `salePrice || price`, so an absent or zero sale price falls back. */
  function EffectivePrice(p: Product): (r: nat)
    ensures p.salePrice.Some? && p.salePrice.value != 0 ==> r == p.salePrice.value
    ensures p.salePrice.None? || p.salePrice.value == 0 ==> r == p.price
  {
    if p.salePrice.Some? && p.salePrice.value != 0 then p.salePrice.value else p.price
  }

  /** `isProductInCart`. */
  predicate InCart(cart: seq<CartItem>, id: int)
  {
    exists i :: 0 <= i < |cart| && cart[i].product.id == id
  }

  /** No product appears in two entries. */
  predicate UniqueProducts(cart: seq<CartItem>)
  {
    forall i, j :: 0 <= i < j < |cart| ==> cart[i].product.id != cart[j].product.id
  }

  /** The cart the store's actions keep: one entry per product, each with at least one unit. */
  predicate ValidCart(cart: seq<CartItem>)
  {
    UniqueProducts(cart) && forall i :: 0 <= i < |cart| ==> cart[i].quantity >= 1
  }

  /** `cart.find(item => item.product.id === id)`. */
  function FindItem(cart: seq<CartItem>, id: int): (r: Option<CartItem>)
    ensures r.Some? <==> InCart(cart, id)
    ensures r.Some? ==> r.value in cart && r.value.product.id == id
  {
    if cart == [] then None
    else if cart[0].product.id == id then Some(cart[0])
    else
      assert forall i :: 1 <= i < |cart| ==> cart[i] == cart[1..][i - 1];
      FindItem(cart[1..], id)
  }

  /** In a cart without duplicates the entry found is the one entry with that id. */
  lemma FindItemUnique(cart: seq<CartItem>, k: int)
    requires UniqueProducts(cart) && 0 <= k < |cart|
    ensures FindItem(cart, cart[k].product.id) == Some(cart[k])
  {
    var r := FindItem(cart, cart[k].product.id);
    var j :| 0 <= j < |cart| && cart[j] == r.value;
  }

  /** `getProductQuantityInCart`: the entry's quantity, or 0. */
  function QuantityInCart(cart: seq<CartItem>, id: int): int
  {
    match FindItem(cart, id)
    case Some(item) => item.quantity
    case None => 0
  }

  /** In a valid cart a product is in the cart exactly when its quantity there is positive. */
  lemma InCartIffQuantity(cart: seq<CartItem>, id: int)
    requires ValidCart(cart)
    ensures InCart(cart, id) <==> QuantityInCart(cart, id) > 0
  {
    if InCart(cart, id) {
      var j :| 0 <= j < |cart| && cart[j] == FindItem(cart, id).value;
    }
  }

  /** Every entry for `id` with one more unit (`increment`) or with quantity `q`; the others untouched. */
  function MapQuantity(cart: seq<CartItem>, id: int, q: int, increment: bool): (r: seq<CartItem>)
    ensures |r| == |cart|
    ensures forall i :: 0 <= i < |r| ==> r[i].product == cart[i].product
    ensures forall i :: 0 <= i < |r| ==>
      r[i].quantity == (if cart[i].product.id != id then cart[i].quantity
                        else if increment then cart[i].quantity + 1 else q)
  {
    seq(|cart|, i requires 0 <= i < |cart| =>
      if cart[i].product.id != id then cart[i]
      else cart[i].(quantity := if increment then cart[i].quantity + 1 else q))
  }

  /** `addToCart`'s new cart: one more unit of an existing product, or a new entry of one unit. */
  function AddItem(cart: seq<CartItem>, p: Product): seq<CartItem>
  {
    if InCart(cart, p.id) then MapQuantity(cart, p.id, 0, true) else cart + [CartItem(p, 1)]
  }

  /** `removeFromCart`'s new cart: every entry for the product dropped, the rest in order. */
  function RemoveItem(cart: seq<CartItem>, id: int): (r: seq<CartItem>)
    ensures !InCart(r, id)
    ensures Seqs.IsSubsequence(r, cart)
    ensures forall i :: 0 <= i < |cart| && cart[i].product.id != id ==> cart[i] in r
  {
    Seqs.FilterIsSubsequence(cart, (item: CartItem) => item.product.id != id);
    Seqs.Filter(cart, (item: CartItem) => item.product.id != id)
  }

  /** `updateQuantity`'s new cart: below one removes the product, otherwise sets its quantity. */
  function SetQuantity(cart: seq<CartItem>, id: int, q: int): seq<CartItem>
  {
    if q < 1 then RemoveItem(cart, id) else MapQuantity(cart, id, q, false)
  }

  /** `getCartTotal`: Σ effective price × quantity. */
  function CartTotal(cart: seq<CartItem>): int
  {
    Seqs.Sum(cart, (item: CartItem) => EffectivePrice(item.product) * item.quantity)
  }

  /** `getCartCount`: Σ quantity. */
  function CartCount(cart: seq<CartItem>): int
  {
    Seqs.Sum(cart, (item: CartItem) => item.quantity)
  }

  /** A filter of a valid cart is valid. */
  lemma RemoveItemValid(cart: seq<CartItem>, id: int)
    requires ValidCart(cart)
    ensures ValidCart(RemoveItem(cart, id))
  {
    var r := RemoveItem(cart, id);
    var p := (item: CartItem) => item.product.id != id;
    SubsequenceUnique(r, cart);
  }

  /** Deleting entries from a cart without duplicates leaves none. */
  lemma {:induction false} SubsequenceUnique(r: seq<CartItem>, cart: seq<CartItem>)
    requires ValidCart(cart) && Seqs.IsSubsequence(r, cart)
    ensures ValidCart(r)
    decreases |cart|
  {
    if r != [] {
      var rest := cart[1..];
      assert ValidCart(rest) by {
        forall i, j | 0 <= i < j < |rest| ensures rest[i].product.id != rest[j].product.id
        {
          assert rest[i] == cart[i + 1] && rest[j] == cart[j + 1];
        }
      }
      if r[0] == cart[0] {
        SubsequenceUnique(r[1..], rest);
        Seqs.SubsequenceMembers(r[1..], rest);
        forall j | 0 < j < |r| ensures r[0].product.id != r[j].product.id
        {
          assert r[j] == r[1..][j - 1];
          var m :| 0 <= m < |rest| && rest[m] == r[j];
          assert cart[m + 1] == r[j];
        }
        forall i, j | 0 < i < j < |r| ensures r[i].product.id != r[j].product.id
        {
          assert r[i] == r[1..][i - 1] && r[j] == r[1..][j - 1];
        }
        forall i | 0 <= i < |r| ensures r[i].quantity >= 1
        {
          if i > 0 {
            assert r[i] == r[1..][i - 1];
          }
        }
      } else {
        SubsequenceUnique(r, rest);
      }
    }
  }

  /**
   * `addToCart` keeps the cart valid, puts exactly one more unit of the product in it and
   * raises the item count by one; no other product's quantity changes.
   */
  lemma AddItemSpec(cart: seq<CartItem>, p: Product, other: int)
    requires ValidCart(cart)
    ensures ValidCart(AddItem(cart, p))
    ensures InCart(AddItem(cart, p), p.id)
    ensures QuantityInCart(AddItem(cart, p), p.id) == QuantityInCart(cart, p.id) + 1
    ensures other != p.id ==> QuantityInCart(AddItem(cart, p), other) == QuantityInCart(cart, other)
    ensures CartCount(AddItem(cart, p)) == CartCount(cart) + 1
    ensures |AddItem(cart, p)| == |cart| + (if InCart(cart, p.id) then 0 else 1)
  {
    if InCart(cart, p.id) {
      AddExistingItem(cart, p, other);
    } else {
      AddNewItem(cart, p, other);
    }
  }

  /** One more unit of a product already in the cart. */
  lemma AddExistingItem(cart: seq<CartItem>, p: Product, other: int)
    requires ValidCart(cart) && InCart(cart, p.id)
    ensures ValidCart(AddItem(cart, p))
    ensures InCart(AddItem(cart, p), p.id)
    ensures QuantityInCart(AddItem(cart, p), p.id) == QuantityInCart(cart, p.id) + 1
    ensures other != p.id ==> QuantityInCart(AddItem(cart, p), other) == QuantityInCart(cart, other)
    ensures CartCount(AddItem(cart, p)) == CartCount(cart) + 1
  {
    var r := AddItem(cart, p);
    var k :| 0 <= k < |cart| && cart[k].product.id == p.id;
    assert r[k].product.id == p.id;
    FindItemUnique(cart, k);
    FindItemUnique(r, k);
    Seqs.SumDiffAt(cart, r, k, (item: CartItem) => item.quantity);
    if other != p.id {
      IncrementKeepsOther(cart, p, other);
    }
  }

  /** One more unit of a product leaves every other product's quantity as it was. */
  lemma IncrementKeepsOther(cart: seq<CartItem>, p: Product, other: int)
    requires ValidCart(cart) && InCart(cart, p.id) && other != p.id
    ensures QuantityInCart(AddItem(cart, p), other) == QuantityInCart(cart, other)
  {
    var r := AddItem(cart, p);
    if InCart(cart, other) {
      var j :| 0 <= j < |cart| && cart[j].product.id == other;
      FindItemUnique(cart, j);
      FindItemUnique(r, j);
    } else {
      assert !InCart(r, other);
    }
  }

  /** A product not yet in the cart becomes a new entry of one unit at the end. */
  lemma AddNewItem(cart: seq<CartItem>, p: Product, other: int)
    requires ValidCart(cart) && !InCart(cart, p.id)
    ensures ValidCart(AddItem(cart, p))
    ensures QuantityInCart(AddItem(cart, p), p.id) == 1
    ensures other != p.id ==> QuantityInCart(AddItem(cart, p), other) == QuantityInCart(cart, other)
    ensures CartCount(AddItem(cart, p)) == CartCount(cart) + 1
  {
    var r := AddItem(cart, p);
    var fq := (item: CartItem) => item.quantity;
    assert r[|cart|] == CartItem(p, 1);
    FindItemUnique(r, |cart|);
    Seqs.SumAppend(cart, [CartItem(p, 1)], fq);
    assert Seqs.Sum([CartItem(p, 1)], fq) == 1;
    if other != p.id {
      if InCart(cart, other) {
        var j :| 0 <= j < |cart| && cart[j].product.id == other;
        FindItemUnique(cart, j);
        assert r[j] == cart[j];
        FindItemUnique(r, j);
      } else {
        assert !InCart(r, other);
      }
    }
  }

  /** Adding a product not yet in the cart adds its effective price to the total. */
  lemma AddNewItemTotal(cart: seq<CartItem>, p: Product)
    requires !InCart(cart, p.id)
    ensures CartTotal(AddItem(cart, p)) == CartTotal(cart) + EffectivePrice(p)
  {
    var f := (item: CartItem) => EffectivePrice(item.product) * item.quantity;
    Seqs.SumAppend(cart, [CartItem(p, 1)], f);
    assert Seqs.Sum([CartItem(p, 1)], f) == EffectivePrice(p);
  }

  /**
   * `updateQuantity`: a quantity below one removes the product; otherwise the product's
   * quantity becomes exactly `q` and nothing else changes; an id not in the cart is a no-op.
   */
  lemma SetQuantitySpec(cart: seq<CartItem>, id: int, q: int, other: int)
    requires ValidCart(cart)
    ensures ValidCart(SetQuantity(cart, id, q))
    ensures q < 1 ==> !InCart(SetQuantity(cart, id, q), id)
    ensures q >= 1 && InCart(cart, id) ==> QuantityInCart(SetQuantity(cart, id, q), id) == q
    ensures !InCart(cart, id) ==> SetQuantity(cart, id, q) == cart
    ensures other != id ==> QuantityInCart(SetQuantity(cart, id, q), other) == QuantityInCart(cart, other)
  {
    if q < 1 {
      RemoveItemSpec(cart, id, other);
    } else {
      ReplaceQuantitySpec(cart, id, q, other);
    }
  }

  /** `removeFromCart` keeps the cart valid and every other product's quantity; an absent id is a no-op. */
  lemma RemoveItemSpec(cart: seq<CartItem>, id: int, other: int)
    requires ValidCart(cart)
    ensures ValidCart(RemoveItem(cart, id))
    ensures !InCart(cart, id) ==> RemoveItem(cart, id) == cart
    ensures other != id ==> QuantityInCart(RemoveItem(cart, id), other) == QuantityInCart(cart, other)
  {
    RemoveItemValid(cart, id);
    if !InCart(cart, id) {
      Seqs.FilterKeepsAll(cart, (item: CartItem) => item.product.id != id);
    }
    if other != id && InCart(cart, other) {
      RemoveKeepsOther(cart, id, other);
    }
  }

  /** Removing one product leaves the entry of another product in the cart as it was. */
  lemma RemoveKeepsOther(cart: seq<CartItem>, id: int, other: int)
    requires ValidCart(cart) && ValidCart(RemoveItem(cart, id))
    requires other != id && InCart(cart, other)
    ensures QuantityInCart(RemoveItem(cart, id), other) == QuantityInCart(cart, other)
  {
    var r := RemoveItem(cart, id);
    var j :| 0 <= j < |cart| && cart[j].product.id == other;
    FindItemUnique(cart, j);
    var m :| 0 <= m < |r| && r[m] == cart[j];
    FindItemUnique(r, m);
  }

  lemma ReplaceQuantitySpec(cart: seq<CartItem>, id: int, q: int, other: int)
    requires ValidCart(cart) && q >= 1
    ensures ValidCart(MapQuantity(cart, id, q, false))
    ensures InCart(cart, id) ==> QuantityInCart(MapQuantity(cart, id, q, false), id) == q
    ensures !InCart(cart, id) ==> MapQuantity(cart, id, q, false) == cart
    ensures other != id ==> QuantityInCart(MapQuantity(cart, id, q, false), other) == QuantityInCart(cart, other)
  {
    var r := MapQuantity(cart, id, q, false);
    assert ValidCart(r);
    if InCart(cart, id) {
      var k :| 0 <= k < |cart| && cart[k].product.id == id;
      FindItemUnique(r, k);
    } else {
      assert forall i :: 0 <= i < |r| ==> r[i] == cart[i];
    }
    if other != id && InCart(cart, other) {
      var j :| 0 <= j < |cart| && cart[j].product.id == other;
      FindItemUnique(cart, j);
      FindItemUnique(r, j);
    }
  }

  /** A cart of non-negative quantities has a non-negative total. */
  lemma CartTotalNonNegative(cart: seq<CartItem>)
    requires forall i :: 0 <= i < |cart| ==> cart[i].quantity >= 0
    ensures CartTotal(cart) >= 0 && CartCount(cart) >= 0
  {
    var f := (item: CartItem) => EffectivePrice(item.product) * item.quantity;
    assert forall i :: 0 <= i < |cart| ==> f(cart[i]) >= 0;
    Seqs.SumNonNegative(cart, f);
    Seqs.SumNonNegative(cart, (item: CartItem) => item.quantity);
  }

  /** A sale price of zero is ignored, as `||` treats 0 as missing. */
  lemma ZeroSalePriceIgnored(p: Product)
    ensures EffectivePrice(p.(salePrice := Some(0))) == p.price
  {
  }

  datatype CheckoutForm = CheckoutForm(
    firstName: string, lastName: string, email: string, address: string, city: string,
    zipCode: string, country: string, cardNumber: string, cardExpiry: string, cardCVC: string)

  const EmptyForm := CheckoutForm("", "", "", "", "", "", "", "", "", "")

  datatype FormField =
    FirstName | LastName | Email | Address | City | ZipCode | Country | CardNumber | CardExpiry | CardCVC

  /** `checkoutFormData[field]`. */
  function FieldOf(form: CheckoutForm, field: FormField): string
  {
    match field
    case FirstName => form.firstName
    case LastName => form.lastName
    case Email => form.email
    case Address => form.address
    case City => form.city
    case ZipCode => form.zipCode
    case Country => form.country
    case CardNumber => form.cardNumber
    case CardExpiry => form.cardExpiry
    case CardCVC => form.cardCVC
  }

  /** `{...checkoutFormData, [field]: value}`. */
  function WithField(form: CheckoutForm, field: FormField, value: string): CheckoutForm
  {
    match field
    case FirstName => form.(firstName := value)
    case LastName => form.(lastName := value)
    case Email => form.(email := value)
    case Address => form.(address := value)
    case City => form.(city := value)
    case ZipCode => form.(zipCode := value)
    case Country => form.(country := value)
    case CardNumber => form.(cardNumber := value)
    case CardExpiry => form.(cardExpiry := value)
    case CardCVC => form.(cardCVC := value)
  }

  /** Updating a field sets that field and no other. */
  lemma WithFieldSetsOneField(form: CheckoutForm, field: FormField, value: string, other: FormField)
    ensures FieldOf(WithField(form, field, value), field) == value
    ensures other != field ==> FieldOf(WithField(form, field, value), other) == FieldOf(form, other)
  {
  }

  /** Two forms that agree on every field are the same form. */
  lemma FormExtensional(f1: CheckoutForm, f2: CheckoutForm)
    requires forall k: FormField :: FieldOf(f1, k) == FieldOf(f2, k)
    ensures f1 == f2
  {
    assert FieldOf(f1, FirstName) == FieldOf(f2, FirstName);
    assert FieldOf(f1, LastName) == FieldOf(f2, LastName);
    assert FieldOf(f1, Email) == FieldOf(f2, Email);
    assert FieldOf(f1, Address) == FieldOf(f2, Address);
    assert FieldOf(f1, City) == FieldOf(f2, City);
    assert FieldOf(f1, ZipCode) == FieldOf(f2, ZipCode);
    assert FieldOf(f1, Country) == FieldOf(f2, Country);
    assert FieldOf(f1, CardNumber) == FieldOf(f2, CardNumber);
    assert FieldOf(f1, CardExpiry) == FieldOf(f2, CardExpiry);
    assert FieldOf(f1, CardCVC) == FieldOf(f2, CardCVC);
  }

  class ShopStore {
    var cart: seq<CartItem>
    var isCartOpen: bool
    var isCheckoutOpen: bool
    var checkoutStep: int
    var checkoutFormData: CheckoutForm
    var orderPlaced: bool

    constructor ()
      ensures cart == [] && !isCartOpen && !isCheckoutOpen && checkoutStep == 1
      ensures checkoutFormData == EmptyForm && !orderPlaced
    {
      cart := [];
      isCartOpen := false;
      isCheckoutOpen := false;
      checkoutStep := 1;
      checkoutFormData := EmptyForm;
      orderPlaced := false;
    }

    /** `addToCart`: the product added and the cart panel opened. */
    method AddToCart(p: Product)
      modifies this`cart, this`isCartOpen
      ensures cart == AddItem(old(cart), p) && isCartOpen
      ensures ValidCart(old(cart)) ==> ValidCart(cart) && CartCount(cart) == CartCount(old(cart)) + 1
    {
      if ValidCart(cart) {
        AddItemSpec(cart, p, p.id);
      }
      var existing := FindItem(cart, p.id);
      if existing.Some? {
        cart := MapQuantity(cart, p.id, 0, true);
      } else {
        cart := cart + [CartItem(p, 1)];
      }
      isCartOpen := true;
    }

    method UpdateQuantity(id: int, q: int)
      modifies this`cart
      ensures cart == SetQuantity(old(cart), id, q)
      ensures ValidCart(old(cart)) ==> ValidCart(cart)
    {
      if ValidCart(cart) {
        SetQuantitySpec(cart, id, q, id);
      }
      if q < 1 {
        cart := RemoveItem(cart, id);
      } else {
        cart := MapQuantity(cart, id, q, false);
      }
    }

    method RemoveFromCart(id: int)
      modifies this`cart
      ensures cart == RemoveItem(old(cart), id)
      ensures ValidCart(old(cart)) ==> ValidCart(cart)
    {
      if ValidCart(cart) {
        RemoveItemValid(cart, id);
      }
      cart := RemoveItem(cart, id);
    }

    method ClearCart()
      modifies this`cart
      ensures cart == []
    {
      cart := [];
    }

    /** `toggleCart`: the cart panel flipped, the checkout panel always closed. */
    method ToggleCart()
      modifies this`isCartOpen, this`isCheckoutOpen
      ensures isCartOpen == !old(isCartOpen) && !isCheckoutOpen
    {
      isCartOpen := !isCartOpen;
      isCheckoutOpen := false;
    }

    method CloseCart()
      modifies this`isCartOpen
      ensures !isCartOpen
    {
      isCartOpen := false;
    }

    /** `openCheckout`: the cart panel gives way to the checkout panel at its first step. */
    method OpenCheckout()
      modifies this`isCartOpen, this`isCheckoutOpen, this`checkoutStep
      ensures !isCartOpen && isCheckoutOpen && checkoutStep == 1
    {
      isCartOpen := false;
      isCheckoutOpen := true;
      checkoutStep := 1;
    }

    /** `closeCheckout`: the panel closed, back at step 1, every form field blank. */
    method CloseCheckout()
      modifies this`isCheckoutOpen, this`checkoutStep, this`checkoutFormData
      ensures !isCheckoutOpen && checkoutStep == 1
      ensures forall k: FormField :: FieldOf(checkoutFormData, k) == ""
    {
      isCheckoutOpen := false;
      checkoutStep := 1;
      checkoutFormData := EmptyForm;
    }

    method SetCheckoutStep(step: int)
      modifies this`checkoutStep
      ensures checkoutStep == step
    {
      checkoutStep := step;
    }

    /** `updateCheckoutForm`: exactly one field of the form changes. */
    method UpdateCheckoutForm(field: FormField, value: string)
      modifies this`checkoutFormData
      ensures FieldOf(checkoutFormData, field) == value
      ensures forall k: FormField :: k != field ==> FieldOf(checkoutFormData, k) == FieldOf(old(checkoutFormData), k)
    {
      checkoutFormData := WithField(checkoutFormData, field, value);
    }

    /** `completeOrder`: the order marked placed and the confirmation step shown; the cart stays. */
    method CompleteOrder()
      modifies this`orderPlaced, this`checkoutStep
      ensures orderPlaced && checkoutStep == 4
    {
      orderPlaced := true;
      checkoutStep := 4;
    }

    method ResetOrderPlaced()
      modifies this`orderPlaced
      ensures !orderPlaced
    {
      orderPlaced := false;
    }
  }
}
