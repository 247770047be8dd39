/** The cart views: adding and removing products, the priced cart page, and
    the owned / in-cart flags the store page shows next to each product. */
module Cart {

  import opened Options
  import opened Money
  import opened Models
  import Seqs

  /** Sum of the cart lines' snapshot prices, added left to right from
      zero as Python's `sum` does. */
  function Subtotal(cart: seq<CartLine>): (r: Money2)
    ensures cart == [] ==> r == 0
    ensures |cart| == 1 ==> r == cart[0].price
    ensures (forall i :: 0 <= i < |cart| ==> cart[i].price >= 0) ==> r >= 0
  {
    if cart == [] then 0
    else
      var s := Subtotal(cart[..|cart| - 1]);
      var p := cart[|cart| - 1].price;
      assert TwoDecimals(s) && TwoDecimals(p);
      s + p
  }

  /** The subtotal of two carts joined is the sum of their subtotals. */
  lemma {:induction false} SubtotalConcat(a: seq<CartLine>, b: seq<CartLine>)
    ensures Subtotal(a + b) == Subtotal(a) + Subtotal(b)
    decreases |b|
  {
    if b == [] {
      assert a + b == a;
    } else {
      var b' := b[..|b| - 1];
      assert (a + b)[..|a + b| - 1] == a + b';
      assert (a + b)[|a + b| - 1] == b[|b| - 1];
      SubtotalConcat(a, b');
    }
  }

  // ---------------------------------------------------------------------
  // The priced cart page
  // ---------------------------------------------------------------------

  /** The cart page's figures: the lines it lists, and subtotal, IVA and
      tax-inclusive total, none of them rounded. */
  datatype Summary = Summary(lines: seq<CartLine>, subtotal: Money2, iva: Money, total: Money)

  /** Every line that names a product names one the catalog still has. */
  predicate AllListed(cart: seq<CartLine>, catalog: Catalog) {
    forall i :: 0 <= i < |cart| && cart[i].id != 0 ==> cart[i].id in catalog
  }

  /** The lines the cart page lists. It walks the cart in order, skips
      lines without a product id, and fails (404) on a product the catalog
      no longer has. */
  function ListedLines(cart: seq<CartLine>, catalog: Catalog): (r: Option<seq<CartLine>>)
    ensures r.Some? <==> AllListed(cart, catalog)
    ensures r.Some? ==> r.value == Seqs.Filter(HasProduct, cart)
  {
    if cart == [] then Some([])
    else
      var front := cart[..|cart| - 1];
      var last := cart[|cart| - 1];
      AllListedSnoc(front, last, catalog);
      assert cart == front + [last];
      Seqs.FilterConcat(HasProduct, front, [last]);
      match ListedLines(front, catalog)
      case None => None
      case Some(lines) =>
        if last.id == 0 then Some(lines)
        else if last.id !in catalog then None
        else Some(lines + [last])
  }

  lemma AllListedSnoc(front: seq<CartLine>, last: CartLine, catalog: Catalog)
    ensures AllListed(front + [last], catalog)
        <==> AllListed(front, catalog) && (last.id != 0 ==> last.id in catalog)
  {
    var c := front + [last];
    assert c[|front|] == last;
    assert forall i :: 0 <= i < |front| ==> c[i] == front[i];
  }

  /** The cart page's figures, priced at each listed line's snapshot
      price. */
  function Summarize(cart: seq<CartLine>, catalog: Catalog): (r: Option<Summary>)
    ensures r.Some? <==> AllListed(cart, catalog)
    ensures r.Some? ==> r.value.lines == Seqs.Filter(HasProduct, cart)
    ensures r.Some? ==> r.value.subtotal == Subtotal(r.value.lines)
    ensures r.Some? ==> r.value.iva * 100 == r.value.subtotal * 16
    ensures r.Some? ==> r.value.total == r.value.subtotal + r.value.iva
  {
    match ListedLines(cart, catalog)
    case None => None
    case Some(lines) =>
      var sub := Subtotal(lines);
      Some(Summary(lines, sub, Iva(sub), sub + Iva(sub)))
  }

  /** A line carries a product id (`if not pid: continue` skips the rest). */
  function HasProduct(line: CartLine): bool {
    line.id != 0
  }

  /** What checking out with credit or cash charges: the subtotal of every
      line plus IVA. */
  function CheckoutTotal(cart: seq<CartLine>): (r: Money)
    ensures r == Subtotal(cart) + Iva(Subtotal(cart))
  {
    WithIva(Subtotal(cart))
  }

  /** What checking out by card charges: the bare subtotal. */
  function CardTotal(cart: seq<CartLine>): (r: Money)
    ensures r * 116 == CheckoutTotal(cart) * 100
  {
    Subtotal(cart)
  }

  /** For a cart whose lines all carry listed products, the cart page shows
      the same total that checking out with credit or cash charges, and its
      subtotal is what the card page charges; the two differ by the IVA. */
  lemma SummaryAgreesWithCheckout(cart: seq<CartLine>, catalog: Catalog)
    requires forall i :: 0 <= i < |cart| ==> cart[i].id in catalog && cart[i].id != 0
    ensures Summarize(cart, catalog).Some?
    ensures Summarize(cart, catalog).value.total == CheckoutTotal(cart)
    ensures Summarize(cart, catalog).value.subtotal == CardTotal(cart)
    ensures CheckoutTotal(cart) * 100 == CardTotal(cart) * 116
  {
    Seqs.FilterKeepsAll(HasProduct, cart);
  }

  // ---------------------------------------------------------------------
  // Adding and removing
  // ---------------------------------------------------------------------

  datatype AddOutcome = AddMissing | AlreadyOwned | AlreadyInCart | Added

  /** Adding a product: 404 when the catalog lacks it; refused when the
      library already holds it; a no-op when the cart already holds it;
      otherwise one line with the current name and price goes at the end. */
  function AddToCart(user: User, catalog: Catalog, id: ProductId): (r: Step<AddOutcome>)
    ensures r.outcome == AddMissing <==> id !in catalog
    ensures r.outcome == AlreadyOwned <==> id in catalog && Owns(user.library, id)
    ensures r.outcome == AlreadyInCart <==> id in catalog && !Owns(user.library, id) && InCart(user.cart, id)
    ensures r.outcome != Added ==> r.user == user
    ensures r.outcome == Added ==>
      r.user == user.(cart := user.cart + [CartLine(id, catalog[id].name, catalog[id].price)])
  {
    if id !in catalog then Step(user, AddMissing)
    else if Owns(user.library, id) then Step(user, AlreadyOwned)
    else if InCart(user.cart, id) then Step(user, AlreadyInCart)
    else
      var p := catalog[id];
      Step(user.(cart := user.cart + [CartLine(id, p.name, p.price)]), Added)
  }

  /** The test that keeps every cart line not carrying product `id`. A line
      with no product id is always kept: its missing id never equals the
      requested one, even when that is 0. */
  function NotProduct(id: ProductId): CartLine -> bool {
    (line: CartLine) => line.id == 0 || line.id != id
  }

  /** Removing a product id: every line carrying it goes, the rest stay in
      order. The view saves in every case. */
  function RemoveFromCart(user: User, id: ProductId): (r: User)
    ensures r.library == user.library && r.credit == user.credit
    ensures id != 0 ==> !InCart(r.cart, id)
    ensures forall i :: 0 <= i < |r.cart| ==> r.cart[i] in user.cart
    ensures forall i :: 0 <= i < |user.cart| && (user.cart[i].id == 0 || user.cart[i].id != id) ==>
      user.cart[i] in r.cart
  {
    var cart' := Seqs.Filter(NotProduct(id), user.cart);
    assert forall i :: 0 <= i < |cart'| ==> cart'[i].id == 0 || cart'[i].id != id by {
      forall i | 0 <= i < |cart'|
        ensures cart'[i].id == 0 || cart'[i].id != id
      {
        assert NotProduct(id)(cart'[i]);
      }
    }
    user.(cart := cart')
  }

  /** Removal works line by line: removing from two joined carts is
      removing from each, so the surviving lines keep their order. */
  lemma RemoveKeepsOrder(user: User, id: ProductId, a: seq<CartLine>, b: seq<CartLine>)
    requires user.cart == a + b
    ensures RemoveFromCart(user, id).cart
         == RemoveFromCart(user.(cart := a), id).cart + RemoveFromCart(user.(cart := b), id).cart
  {
    Seqs.FilterConcat(NotProduct(id), a, b);
  }

  /** Removing an id the cart does not hold changes nothing. */
  lemma RemoveAbsent(user: User, id: ProductId)
    requires id != 0 ==> !InCart(user.cart, id)
    ensures RemoveFromCart(user, id) == user
  {
    forall i | 0 <= i < |user.cart|
      ensures NotProduct(id)(user.cart[i])
    {
    }
    Seqs.FilterKeepsAll(NotProduct(id), user.cart);
  }

  /** Removing twice is removing once. */
  lemma RemoveIdempotent(user: User, id: ProductId)
    ensures RemoveFromCart(RemoveFromCart(user, id), id) == RemoveFromCart(user, id)
  {
    RemoveAbsent(RemoveFromCart(user, id), id);
  }

  /** Removing a product right after adding it restores the user record.
      Primary keys start at 1, so no catalog product has id 0. */
  lemma AddThenRemove(user: User, catalog: Catalog, id: ProductId)
    requires id != 0
    requires AddToCart(user, catalog, id).outcome == Added
    ensures RemoveFromCart(AddToCart(user, catalog, id).user, id) == user
  {
    var line := CartLine(id, catalog[id].name, catalog[id].price);
    RemoveKeepsOrder(AddToCart(user, catalog, id).user, id, user.cart, [line]);
    RemoveAbsent(user, id);
    assert Seqs.Filter(NotProduct(id), [line]) == [];
  }

  /** Adding raises the cart subtotal by exactly the product's price. */
  lemma AddRaisesSubtotal(user: User, catalog: Catalog, id: ProductId)
    requires AddToCart(user, catalog, id).outcome == Added
    ensures Subtotal(AddToCart(user, catalog, id).user.cart) == Subtotal(user.cart) + catalog[id].price
  {
    SubtotalConcat(user.cart, [CartLine(id, catalog[id].name, catalog[id].price)]);
  }

  // ---------------------------------------------------------------------
  // The store page
  // ---------------------------------------------------------------------

  /** The two marks the store shows next to a product. */
  datatype Flags = Flags(inLibrary: bool, inCart: bool)

  /** Marks for one product; an anonymous visitor owns nothing and has an
      empty cart. */
  function StoreFlags(user: Option<User>, id: ProductId): (f: Flags)
    ensures user.None? ==> f == Flags(false, false)
    ensures user.Some? ==> (f.inLibrary <==> id in LibraryIds(user.value.library))
    ensures user.Some? ==> (f.inCart <==> id in CartIds(user.value.cart))
  {
    match user
    case None => Flags(false, false)
    case Some(u) => Flags(Owns(u.library, id), InCart(u.cart, id))
  }

  /** The products the store lists: the available ones. */
  function Shelf(catalog: Catalog): (r: set<ProductId>)
    ensures forall id :: id in r <==> id in catalog && catalog[id].available
  {
    set id | id in catalog && catalog[id].available
  }

  /** The marks predict what the add button does, and after adding the
      product shows as in the cart. */
  lemma AddAgreesWithFlags(user: User, catalog: Catalog, id: ProductId)
    requires id in catalog
    ensures var f := StoreFlags(Some(user), id);
      && (AddToCart(user, catalog, id).outcome == AlreadyOwned <==> f.inLibrary)
      && (AddToCart(user, catalog, id).outcome == AlreadyInCart <==> !f.inLibrary && f.inCart)
      && (AddToCart(user, catalog, id).outcome == Added <==> !f.inLibrary && !f.inCart)
    ensures AddToCart(user, catalog, id).outcome == Added ==>
      StoreFlags(Some(AddToCart(user, catalog, id).user), id) == Flags(false, true)
  {
    var r := AddToCart(user, catalog, id);
    if r.outcome == Added {
      assert r.user.cart[|r.user.cart| - 1].id == id;
    }
  }

  /** Adding and removing keep a consistent user consistent. */
  lemma AddKeepsConsistent(user: User, catalog: Catalog, id: ProductId)
    requires Consistent(user)
    ensures Consistent(AddToCart(user, catalog, id).user)
  {
  }

  lemma RemoveKeepsConsistent(user: User, id: ProductId)
    requires Consistent(user)
    ensures Consistent(RemoveFromCart(user, id))
  {
    assert Seqs.DistinctKeys(LineId, user.cart);
    Seqs.FilterDistinctKeys(NotProduct(id), LineId, user.cart);
  }
}
