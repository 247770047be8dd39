/** Properties that span several views: the consistency every view keeps,
    a return undoing a purchase, and the worked credit example. */
module Lifecycle {

  import opened Options
  import opened Money
  import opened Models
  import opened Forms
  import opened Cart
  import opened Checkout
  import opened Account
  import Seqs

  /** A new user is consistent, and every view keeps a consistent user
      consistent. */
  lemma ViewsKeepConsistent(user: User, catalog: Catalog, id: ProductId, today: Today, now: string,
                            pay: Request<PaymentForm>, card: Request<CardForm>,
                            topUp: Request<TopUpForm>, refund: Request<Option<string>>)
    requires Consistent(user)
    ensures Consistent(NewUser())
    ensures Consistent(AddToCart(user, catalog, id).user)
    ensures Consistent(RemoveFromCart(user, id))
    ensures Consistent(BuyCart(user, catalog, pay, now).user)
    ensures Consistent(PayByCard(user, catalog, card, today, now).user)
    ensures Consistent(TopUp(user, topUp, today).user)
    ensures Consistent(ReturnProduct(user, catalog, id, refund).user)
  {
    AddKeepsConsistent(user, catalog, id);
    RemoveKeepsConsistent(user, id);
    CheckoutKeepsConsistent(user, catalog, pay, card, today, now);
    ReturnKeepsConsistent(user, catalog, id, refund);
  }

  /** Buying a single product with cash and returning it for credit gives
      back the original library and cart-free state, with the balance raised
      by the product's catalog price (cash was never deducted). */
  lemma ReturnUndoesCashPurchase(user: User, catalog: Catalog, id: ProductId,
                                 form: PaymentForm, now: string)
    requires id != 0 && id in catalog && !Owns(user.library, id)
    requires user.cart == [CartLine(id, catalog[id].name, catalog[id].price)]
    requires CleanPaymentForm(form) == Some(Efectivo)
    ensures var bought := BuyCart(user, catalog, Submit(form), now);
      && bought.outcome.Bought?
      && ReturnProduct(bought.user, catalog, id, Submit(Some("credito"))).user
         == User([], user.library, user.credit + catalog[id].price)
  {
    var e := LibraryEntry(id, NameOf(catalog, id), now);
    BuySingleForCash(user, catalog, id, form, now);
    var after := User([], user.library + [e], user.credit);
    assert Owns(after.library, id) by {
      assert after.library[|user.library|] == e;
    }
    WithoutProductKeepsOrder(user.library, [e], id);
    WithoutProductAbsent(user.library, id);
    WithoutProductSingle(e, id);
    assert ReturnProduct(after, catalog, id, Submit(Some("credito"))).user
        == User([], user.library, user.credit + catalog[id].price);
  }

  /** Cash for a one-line cart of a new product buys exactly that product. */
  lemma BuySingleForCash(user: User, catalog: Catalog, id: ProductId, form: PaymentForm, now: string)
    requires id != 0 && id in catalog && !Owns(user.library, id)
    requires user.cart == [CartLine(id, catalog[id].name, catalog[id].price)]
    requires CleanPaymentForm(form) == Some(Efectivo)
    ensures var bought := BuyCart(user, catalog, Submit(form), now);
      && bought.outcome.Bought?
      && bought.user == User([], user.library + [LibraryEntry(id, NameOf(catalog, id), now)], user.credit)
  {
    assert CartIds(user.cart) == [id];
    assert id !in LibraryIds(user.library);
    assert FreshIds([id], LibraryIds(user.library)) == [id] + FreshIds([], LibraryIds(user.library) + {id});
    assert NewIds(user) == [id];
    assert AllListed(user.cart, catalog);
    assert EntriesFor([id], catalog, now) == [LibraryEntry(id, NameOf(catalog, id), now)];
  }

  /** The worked example: a 19.99 and a 9.99 line cost 29.98 plus 4.7968
      IVA, 34.7768 in all, with no rounding to cents. A balance of 50.00
      pays it and leaves 15.2232; a balance of 10.00 is refused. */
  lemma CreditExample()
    ensures var catalog := map[1 := Product("Juego A", Juego, 19_9900, true),
                               2 := Product("DLC B", Dlc, 9_9900, true)];
      var cart := [CartLine(1, "Juego A", 19_9900), CartLine(2, "DLC B", 9_9900)];
      var form := PaymentForm("Credito", "5550000", "Calle 1");
      && CheckoutTotal(cart) == 34_7768
      && BuyCart(User(cart, [], 50 * Peso), catalog, Submit(form), "2026-10-10 12:00").user.credit == 15_2232
      && BuyCart(User(cart, [], 10 * Peso), catalog, Submit(form), "2026-10-10 12:00").outcome == NotEnoughCredit
  {
    var catalog := map[1 := Product("Juego A", Juego, 19_9900, true),
                       2 := Product("DLC B", Dlc, 9_9900, true)];
    var cart := [CartLine(1, "Juego A", 19_9900), CartLine(2, "DLC B", 9_9900)];
    var form := PaymentForm("Credito", "5550000", "Calle 1");
    assert Subtotal(cart) == 29_9800 by {
      assert cart[..1] == [cart[0]];
      assert cart[..1][..0] == [];
    }
    var user := User(cart, [], 50 * Peso);
    assert Consistent(user);
    assert CartIds(cart) == [1, 2];
    FreshAllNew(CartIds(cart), LibraryIds(user.library));
    assert NewIds(user) != [];
    assert AllListed(cart, catalog);
  }
}
