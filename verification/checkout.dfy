/** Checking out: the cash / credit view, the card view, and the purchase
    loop they share. */
module Checkout {

  import opened Options
  import opened Money
  import opened Models
  import opened Forms
  import opened Cart
  import Seqs

  // ---------------------------------------------------------------------
  // Which products a checkout buys
  // ---------------------------------------------------------------------

  /** Reference definition: the ids a checkout buys, in cart order. An id
      is bought when it names a product, is not owned yet and has not been
      bought earlier in the same cart. */
  function FreshIds(ids: seq<ProductId>, owned: set<ProductId>): seq<ProductId>
  {
    if ids == [] then []
    else if ids[0] == 0 || ids[0] in owned then FreshIds(ids[1..], owned)
    else [ids[0]] + FreshIds(ids[1..], owned + {ids[0]})
  }

  /** A bought id is one of the cart's, names a product, and was not owned;
      every such cart id is bought. */
  lemma {:induction false} FreshMembers(ids: seq<ProductId>, owned: set<ProductId>)
    ensures forall x :: x in FreshIds(ids, owned) <==> x in ids && x != 0 && x !in owned
  {
    if ids != [] {
      FreshMembers(ids[1..], owned);
      FreshMembers(ids[1..], owned + {ids[0]});
      assert ids == [ids[0]] + ids[1..];
    }
  }

  /** No id is bought twice. */
  lemma {:induction false} FreshDistinct(ids: seq<ProductId>, owned: set<ProductId>)
    ensures Seqs.Distinct(FreshIds(ids, owned))
  {
    if ids != [] {
      var x := ids[0];
      if x == 0 || x in owned {
        assert FreshIds(ids, owned) == FreshIds(ids[1..], owned);
        FreshDistinct(ids[1..], owned);
      } else {
        var t := FreshIds(ids[1..], owned + {x});
        FreshDistinct(ids[1..], owned + {x});
        FreshMembers(ids[1..], owned + {x});
        var f := [x] + t;
        assert FreshIds(ids, owned) == f;
        assert x !in t;
        forall p, q | 0 <= p < q < |f|
          ensures f[p] != f[q]
        {
          if p == 0 {
            assert f[0] == x;
            assert f[q] == t[q - 1] && t[q - 1] in t;
          } else {
            assert f[p] == t[p - 1] && f[q] == t[q - 1];
          }
        }
      }
    }
  }

  /** When the cart's ids are distinct product ids, none of them owned,
      the checkout buys all of them in cart order. */
  lemma {:induction false} FreshAllNew(ids: seq<ProductId>, owned: set<ProductId>)
    requires Seqs.Distinct(ids)
    requires forall p :: 0 <= p < |ids| ==> ids[p] != 0 && ids[p] !in owned
    ensures FreshIds(ids, owned) == ids
  {
    if ids != [] {
      var rest := ids[1..];
      assert forall p :: 0 <= p < |rest| ==> rest[p] == ids[p + 1];
      assert Seqs.Distinct(rest) by {
        forall p, q | 0 <= p < q < |rest|
          ensures Seqs.Self(rest[p]) != Seqs.Self(rest[q])
        {
          assert Seqs.Self(ids[p + 1]) != Seqs.Self(ids[q + 1]);
        }
      }
      FreshAllNew(rest, owned + {ids[0]});
    }
  }

  /** When every id is either no product or owned, nothing is bought. */
  lemma {:induction false} FreshNone(ids: seq<ProductId>, owned: set<ProductId>)
    requires forall p :: 0 <= p < |ids| ==> ids[p] == 0 || ids[p] in owned
    ensures FreshIds(ids, owned) == []
  {
    if ids != [] {
      FreshNone(ids[1..], owned);
    }
  }

  /** The details recorded for bought ids, named from the catalog. */
  function DetailsFor(ids: seq<ProductId>, catalog: Catalog): (r: seq<Detail>)
    ensures |r| == |ids|
    ensures forall i :: 0 <= i < |ids| ==> r[i] == Detail(ids[i], NameOf(catalog, ids[i]))
  {
    if ids == [] then [] else [Detail(ids[0], NameOf(catalog, ids[0]))] + DetailsFor(ids[1..], catalog)
  }

  /** The library entries appended for bought ids, all stamped `now`. */
  function EntriesFor(ids: seq<ProductId>, catalog: Catalog, now: string): (r: seq<LibraryEntry>)
    ensures |r| == |ids|
    ensures forall i :: 0 <= i < |ids| ==> r[i] == LibraryEntry(ids[i], NameOf(catalog, ids[i]), now)
  {
    if ids == [] then [] else [LibraryEntry(ids[0], NameOf(catalog, ids[0]), now)] + EntriesFor(ids[1..], catalog, now)
  }

  /** The ids a checkout of this user's cart buys. */
  function NewIds(user: User): seq<ProductId> {
    FreshIds(CartIds(user.cart), LibraryIds(user.library))
  }

  // ---------------------------------------------------------------------
  // The purchase loop
  // ---------------------------------------------------------------------

  /** Result of the purchase loop: a 404 on some line, or the details and
      the grown library. */
  datatype Scan = Missing | Scanned(details: seq<Detail>, library: seq<LibraryEntry>)

  /** The loop shared by the three payment paths. For each line in order:
      skip it without a product id; 404 when the catalog lacks the product;
      skip it when the library (which grows as the loop goes) already has
      the product; otherwise record a detail and append a library entry. */
  function ScanCart(cart: seq<CartLine>, catalog: Catalog, now: string,
                    details: seq<Detail>, library: seq<LibraryEntry>): (r: Scan)
    ensures r.Scanned? ==>
      && |details| <= |r.details| && |library| <= |r.library|
      && |r.details| - |details| == |r.library| - |library|
      && r.details[..|details|] == details && r.library[..|library|] == library
    decreases |cart|
  {
    if cart == [] then Scanned(details, library)
    else
      var id := cart[0].id;
      if id == 0 then ScanCart(cart[1..], catalog, now, details, library)
      else if id !in catalog then Missing
      else if Owns(library, id) then ScanCart(cart[1..], catalog, now, details, library)
      else
        var name := catalog[id].name;
        ScanCart(cart[1..], catalog, now, details + [Detail(id, name)],
                 library + [LibraryEntry(id, name, now)])
  }

  lemma AllListedCons(cart: seq<CartLine>, catalog: Catalog)
    requires cart != []
    ensures AllListed(cart, catalog)
        <==> (cart[0].id != 0 ==> cart[0].id in catalog) && AllListed(cart[1..], catalog)
  {
    assert forall i :: 0 < i < |cart| ==> cart[i] == cart[1..][i - 1];
  }

  lemma CartIdsCons(cart: seq<CartLine>)
    requires cart != []
    ensures CartIds(cart) == [cart[0].id] + CartIds(cart[1..])
  {
  }

  /** The loop does what the reference definition says: it fails exactly
      when some line names a product the catalog lacks, and otherwise
      appends the details and entries of the bought ids, in cart order. */
  lemma {:induction false} ScanCartSpec(cart: seq<CartLine>, catalog: Catalog, now: string,
                                        details: seq<Detail>, library: seq<LibraryEntry>)
    ensures ScanCart(cart, catalog, now, details, library).Missing? <==> !AllListed(cart, catalog)
    ensures AllListed(cart, catalog) ==>
      (var bought := FreshIds(CartIds(cart), LibraryIds(library));
       ScanCart(cart, catalog, now, details, library)
         == Scanned(details + DetailsFor(bought, catalog), library + EntriesFor(bought, catalog, now)))
    decreases |cart|, 1
  {
    if cart == [] {
      assert details + [] == details && library + [] == library;
    } else {
      AllListedCons(cart, catalog);
      CartIdsCons(cart);
      var id := cart[0].id;
      if id == 0 || (id in catalog && Owns(library, id)) {
        ScanCartSpec(cart[1..], catalog, now, details, library);
      } else if id in catalog {
        ScanCartBuys(cart, catalog, now, details, library);
      }
    }
  }

  /** The step of the loop that buys the first line. */
  lemma {:induction false} ScanCartBuys(cart: seq<CartLine>, catalog: Catalog, now: string,
                                        details: seq<Detail>, library: seq<LibraryEntry>)
    requires cart != [] && cart[0].id != 0 && cart[0].id in catalog && !Owns(library, cart[0].id)
    ensures ScanCart(cart, catalog, now, details, library).Missing? <==> !AllListed(cart, catalog)
    ensures AllListed(cart, catalog) ==>
      (var bought := FreshIds(CartIds(cart), LibraryIds(library));
       ScanCart(cart, catalog, now, details, library)
         == Scanned(details + DetailsFor(bought, catalog), library + EntriesFor(bought, catalog, now)))
    decreases |cart|, 0
  {
    AllListedCons(cart, catalog);
    var id := cart[0].id;
    var name := catalog[id].name;
    var library' := library + [LibraryEntry(id, name, now)];
    ScanCartBuyUnfold(cart, catalog, now, details, library);
    LibraryIdsSnoc(library, LibraryEntry(id, name, now));
    ScanCartSpec(cart[1..], catalog, now, details + [Detail(id, name)], library');
    BoughtFirst(cart, catalog, now, details, library);
  }

  /** Buying the first line puts its detail and entry in front of those of
      the rest of the cart. */
  lemma BoughtFirst(cart: seq<CartLine>, catalog: Catalog, now: string,
                    details: seq<Detail>, library: seq<LibraryEntry>)
    requires cart != [] && cart[0].id != 0 && cart[0].id in catalog && !Owns(library, cart[0].id)
    ensures var id := cart[0].id;
      var name := catalog[id].name;
      var f := FreshIds(CartIds(cart[1..]), LibraryIds(library) + {id});
      var bought := FreshIds(CartIds(cart), LibraryIds(library));
      && details + [Detail(id, name)] + DetailsFor(f, catalog) == details + DetailsFor(bought, catalog)
      && library + [LibraryEntry(id, name, now)] + EntriesFor(f, catalog, now)
         == library + EntriesFor(bought, catalog, now)
  {
    var id := cart[0].id;
    var name := catalog[id].name;
    var f := FreshIds(CartIds(cart[1..]), LibraryIds(library) + {id});
    var bought := FreshIds(CartIds(cart), LibraryIds(library));
    FreshBuysFirst(cart, library);
    assert bought == [id] + f;
    ForCons(id, f, catalog, now);
    var ds := DetailsFor(f, catalog);
    var es := EntriesFor(f, catalog, now);
    assert DetailsFor(bought, catalog) == [Detail(id, name)] + ds;
    assert EntriesFor(bought, catalog, now) == [LibraryEntry(id, name, now)] + es;
    Assoc(details, Detail(id, name), ds);
    Assoc(library, LibraryEntry(id, name, now), es);
  }

  lemma Assoc<T>(a: seq<T>, x: T, b: seq<T>)
    ensures a + [x] + b == a + ([x] + b)
  {
  }

  lemma ScanCartBuyUnfold(cart: seq<CartLine>, catalog: Catalog, now: string,
                          details: seq<Detail>, library: seq<LibraryEntry>)
    requires cart != [] && cart[0].id != 0 && cart[0].id in catalog && !Owns(library, cart[0].id)
    ensures ScanCart(cart, catalog, now, details, library)
         == ScanCart(cart[1..], catalog, now,
                     details + [Detail(cart[0].id, catalog[cart[0].id].name)],
                     library + [LibraryEntry(cart[0].id, catalog[cart[0].id].name, now)])
  {
  }

  lemma FreshBuysFirst(cart: seq<CartLine>, library: seq<LibraryEntry>)
    requires cart != [] && cart[0].id != 0 && !Owns(library, cart[0].id)
    ensures FreshIds(CartIds(cart), LibraryIds(library))
         == [cart[0].id] + FreshIds(CartIds(cart[1..]), LibraryIds(library) + {cart[0].id})
  {
    CartIdsCons(cart);
  }

  lemma ForCons(id: ProductId, f: seq<ProductId>, catalog: Catalog, now: string)
    requires id in catalog
    ensures DetailsFor([id] + f, catalog) == [Detail(id, catalog[id].name)] + DetailsFor(f, catalog)
    ensures EntriesFor([id] + f, catalog, now) == [LibraryEntry(id, catalog[id].name, now)] + EntriesFor(f, catalog, now)
  {
    assert ([id] + f)[1..] == f;
  }

  lemma LibraryIdsSnoc(library: seq<LibraryEntry>, e: LibraryEntry)
    ensures LibraryIds(library + [e]) == LibraryIds(library) + {e.id}
  {
    var library' := library + [e];
    assert library'[|library|] == e;
    assert forall i :: 0 <= i < |library| ==> library'[i] == library[i];
  }

  // ---------------------------------------------------------------------
  // The checkout views
  // ---------------------------------------------------------------------

  datatype CheckoutOutcome =
    | CartEmpty                 // nothing to buy
    | ChoosePayment(total: Money) // the form is shown (again) with the total
    | ToCardPage                // card chosen: continue on the card page
    | NotEnoughCredit
    | ProductMissing            // a cart line's product is gone (404)
    | AllOwned                  // every line was already in the library
    | Bought(purchase: Purchase)

  /** What a successful checkout persists: the cart emptied, the library
      grown by the bought products in cart order, the given balance, and a
      completed purchase listing exactly the bought products. */
  predicate Committed(before: User, catalog: Catalog, now: string, credit: Money,
                      total: Money, payment: PaymentMethod, after: Step<CheckoutOutcome>)
  {
    var bought := NewIds(before);
    && bought != []
    && after.user == User([], before.library + EntriesFor(bought, catalog, now), credit)
    && after.outcome == Bought(Purchase(DetailsFor(bought, catalog), total, payment, Completada))
  }

  /** The end of every payment path: run the purchase loop; persist and
      record a purchase only when it bought something. `credit` is the
      balance as already adjusted in memory. */
  function Commit(user: User, credit: Money, catalog: Catalog, now: string,
                  total: Money, payment: PaymentMethod): (r: Step<CheckoutOutcome>)
    ensures r.outcome == ProductMissing <==> !AllListed(user.cart, catalog)
    ensures r.outcome == AllOwned <==> AllListed(user.cart, catalog) && NewIds(user) == []
    ensures r.outcome.ProductMissing? || r.outcome.AllOwned? || r.outcome.Bought?
    ensures !r.outcome.Bought? ==> r.user == user
    ensures r.outcome.Bought? ==> Committed(user, catalog, now, credit, total, payment, r)
  {
    ScanCartSpec(user.cart, catalog, now, [], user.library);
    assert [] + DetailsFor(NewIds(user), catalog) == DetailsFor(NewIds(user), catalog);
    match ScanCart(user.cart, catalog, now, [], user.library)
    case Missing => Step(user, ProductMissing)
    case Scanned(details, library) =>
      if details == [] then Step(user, AllOwned)
      else Step(User([], library, credit), Bought(Purchase(details, total, payment, Completada)))
  }

  /** The cleaned choice goes straight to the purchase loop: cash, or
      credit that covers the total. */
  predicate PaysNow(choice: Option<PaymentMethod>, credit: Money, total: Money) {
    choice == Some(Efectivo) || (choice == Some(Credito) && credit >= total)
  }

  /** The payment-method view. An empty cart is turned away first; the
      total is the subtotal plus IVA. Card sends the user on to the card
      page; credit is checked against the total before it is deducted, and
      the deduction is kept only if a purchase is recorded; cash needs no
      check. */
  function BuyCart(user: User, catalog: Catalog, req: Request<PaymentForm>, now: string): (r: Step<CheckoutOutcome>)
    ensures user.cart == [] ==> r == Step(user, CartEmpty)
    ensures !r.outcome.Bought? ==> r.user == user
    ensures r.outcome == NotEnoughCredit ==> user.credit < CheckoutTotal(user.cart)
    ensures user.cart != [] && (req.Show? || CleanPaymentForm(req.form).None?) ==>
      r.outcome == ChoosePayment(CheckoutTotal(user.cart))
    ensures user.cart != [] && req.Submit? && CleanPaymentForm(req.form) == Some(Tarjeta) ==>
      r == Step(user, ToCardPage)
    ensures user.cart != [] && req.Submit? && CleanPaymentForm(req.form) == Some(Credito)
            && user.credit < CheckoutTotal(user.cart) ==>
      r == Step(user, NotEnoughCredit)
    ensures user.cart != [] && req.Submit? && PaysNow(CleanPaymentForm(req.form), user.credit, CheckoutTotal(user.cart)) ==>
      && (r.outcome == ProductMissing <==> !AllListed(user.cart, catalog))
      && (r.outcome == AllOwned <==> AllListed(user.cart, catalog) && NewIds(user) == [])
      && (r.outcome.Bought? <==> AllListed(user.cart, catalog) && NewIds(user) != [])
    ensures r.outcome.Bought? ==>
      && req.Submit? && CleanPaymentForm(req.form) == Some(r.outcome.purchase.payment)
      && r.outcome.purchase.payment != Tarjeta
      && (r.outcome.purchase.payment == Credito ==> user.credit >= CheckoutTotal(user.cart))
      && var total := CheckoutTotal(user.cart);
         var credit := if r.outcome.purchase.payment == Credito then user.credit - total else user.credit;
         Committed(user, catalog, now, credit, total, r.outcome.purchase.payment, r)
  {
    if user.cart == [] then Step(user, CartEmpty)
    else
      var total := CheckoutTotal(user.cart);
      match req
      case Show => Step(user, ChoosePayment(total))
      case Submit(form) =>
        match CleanPaymentForm(form)
        case None => Step(user, ChoosePayment(total))
        case Some(Tarjeta) => Step(user, ToCardPage)
        case Some(Credito) =>
          if user.credit < total then Step(user, NotEnoughCredit)
          else Commit(user, user.credit - total, catalog, now, total, Credito)
        case Some(Efectivo) => Commit(user, user.credit, catalog, now, total, Efectivo)
  }

  /** The card view. An empty cart is turned away first; the total is the
      bare subtotal, with no IVA; an invalid card form is shown again. */
  function PayByCard(user: User, catalog: Catalog, req: Request<CardForm>, today: Today, now: string): (r: Step<CheckoutOutcome>)
    ensures user.cart == [] ==> r == Step(user, CartEmpty)
    ensures !r.outcome.Bought? ==> r.user == user
    ensures user.cart != [] && (req.Show? || !CardFormValid(req.form, today)) ==>
      r == Step(user, ChoosePayment(CardTotal(user.cart)))
    ensures user.cart != [] && req.Submit? && CardFormValid(req.form, today) ==>
      && (r.outcome == ProductMissing <==> !AllListed(user.cart, catalog))
      && (r.outcome == AllOwned <==> AllListed(user.cart, catalog) && NewIds(user) == [])
      && (r.outcome.Bought? <==> AllListed(user.cart, catalog) && NewIds(user) != [])
    ensures r.outcome.Bought? ==>
      && req.Submit? && CardFormValid(req.form, today)
      && Committed(user, catalog, now, user.credit, CardTotal(user.cart), Tarjeta, r)
  {
    if user.cart == [] then Step(user, CartEmpty)
    else
      var total := CardTotal(user.cart);
      match req
      case Show => Step(user, ChoosePayment(total))
      case Submit(form) =>
        if !CardFormValid(form, today) then Step(user, ChoosePayment(total))
        else Commit(user, user.credit, catalog, now, total, Tarjeta)
  }

  // ---------------------------------------------------------------------
  // Properties of checkout
  // ---------------------------------------------------------------------

  /** Every purchase either view records is Completada, carries the
      method the buyer chose and the total that view computes, and lists
      the bought products in cart order. */
  lemma RecordedPurchase(user: User, catalog: Catalog, req: Request<PaymentForm>,
                         cardReq: Request<CardForm>, today: Today, now: string)
    ensures var r := BuyCart(user, catalog, req, now);
      r.outcome.Bought? ==>
        && r.outcome.purchase.status == Completada
        && req.Submit? && CleanPaymentForm(req.form) == Some(r.outcome.purchase.payment)
        && r.outcome.purchase.total == CheckoutTotal(user.cart)
        && r.outcome.purchase.details == DetailsFor(NewIds(user), catalog)
    ensures var r := PayByCard(user, catalog, cardReq, today, now);
      r.outcome.Bought? ==>
        && r.outcome.purchase.status == Completada
        && r.outcome.purchase.payment == Tarjeta
        && r.outcome.purchase.total == CardTotal(user.cart)
        && r.outcome.purchase.details == DetailsFor(NewIds(user), catalog)
  {
  }

  /** Paying with credit is refused, with nothing changed, exactly when the
      balance is below the tax-inclusive total; when it goes through, the
      new balance is the old one less the total, and not negative. */
  lemma CreditCheckout(user: User, catalog: Catalog, form: PaymentForm, now: string)
    requires user.cart != [] && CleanPaymentForm(form) == Some(Credito)
    ensures var r := BuyCart(user, catalog, Submit(form), now);
      && (r.outcome == NotEnoughCredit <==> user.credit < CheckoutTotal(user.cart))
      && (r.outcome == NotEnoughCredit ==> r.user == user)
      && (r.outcome.Bought? ==>
            r.user.credit == user.credit - CheckoutTotal(user.cart) && r.user.credit >= 0)
  {
  }

  /** A cart whose every product is already owned buys nothing: no purchase
      is recorded, and cart, library and balance stay as they were, even on
      the credit path, whose deduction is never saved. */
  lemma AllOwnedChangesNothing(user: User, catalog: Catalog, form: PaymentForm, now: string)
    requires AllListed(user.cart, catalog)
    requires forall i :: 0 <= i < |user.cart| ==> user.cart[i].id == 0 || Owns(user.library, user.cart[i].id)
    requires CleanPaymentForm(form) == Some(Efectivo)
          || (CleanPaymentForm(form) == Some(Credito) && user.credit >= CheckoutTotal(user.cart))
    requires user.cart != []
    ensures BuyCart(user, catalog, Submit(form), now) == Step(user, AllOwned)
  {
    FreshNone(CartIds(user.cart), LibraryIds(user.library));
  }

  /** The same for the card page. */
  lemma AllOwnedChangesNothingByCard(user: User, catalog: Catalog, form: CardForm, today: Today, now: string)
    requires AllListed(user.cart, catalog)
    requires forall i :: 0 <= i < |user.cart| ==> user.cart[i].id == 0 || Owns(user.library, user.cart[i].id)
    requires CardFormValid(form, today) && user.cart != []
    ensures PayByCard(user, catalog, Submit(form), today, now) == Step(user, AllOwned)
  {
    FreshNone(CartIds(user.cart), LibraryIds(user.library));
  }

  /** After a purchase every product the cart named is owned, and none of
      them is in the cart any more. */
  lemma BoughtMeansOwned(before: User, catalog: Catalog, now: string, credit: Money,
                         total: Money, payment: PaymentMethod, after: Step<CheckoutOutcome>, id: ProductId)
    requires Committed(before, catalog, now, credit, total, payment, after)
    requires id != 0 && InCart(before.cart, id)
    ensures Owns(after.user.library, id) && !InCart(after.user.cart, id)
  {
    var bought := NewIds(before);
    var es := EntriesFor(bought, catalog, now);
    FreshMembers(CartIds(before.cart), LibraryIds(before.library));
    var i :| 0 <= i < |before.cart| && before.cart[i].id == id;
    assert CartIds(before.cart)[i] == id;
    if Owns(before.library, id) {
      var j :| 0 <= j < |before.library| && before.library[j].id == id;
      assert after.user.library[j] == before.library[j];
    } else {
      assert id in bought;
      var k :| 0 <= k < |bought| && bought[k] == id;
      assert after.user.library[|before.library| + k] == es[k];
    }
  }

  /** For a consistent user whose cart lines all name listed products, a
      cash purchase buys the whole cart: the library gains every cart
      product, once and in cart order, and the purchase lists them all. */
  lemma CashBuysWholeCart(user: User, catalog: Catalog, form: PaymentForm, now: string)
    requires Consistent(user) && user.cart != []
    requires forall i :: 0 <= i < |user.cart| ==> user.cart[i].id != 0 && user.cart[i].id in catalog
    requires CleanPaymentForm(form) == Some(Efectivo)
    ensures var r := BuyCart(user, catalog, Submit(form), now);
      && r.user == User([], user.library + EntriesFor(CartIds(user.cart), catalog, now), user.credit)
      && r.outcome == Bought(Purchase(DetailsFor(CartIds(user.cart), catalog),
                                      CheckoutTotal(user.cart), Efectivo, Completada))
  {
    var ids := CartIds(user.cart);
    forall p | 0 <= p < |ids|
      ensures ids[p] != 0 && ids[p] !in LibraryIds(user.library)
    {
      assert ids[p] == user.cart[p].id;
    }
    FreshAllNew(ids, LibraryIds(user.library));
    assert NewIds(user) == ids && ids != [];
    var r := Commit(user, user.credit, catalog, now, CheckoutTotal(user.cart), Efectivo);
    assert r.outcome.Bought?;
  }

  /** Appending entries for distinct, not yet owned ids keeps library ids
      distinct. */
  lemma AppendKeepsDistinct(library: seq<LibraryEntry>, bought: seq<ProductId>, catalog: Catalog, now: string)
    requires Seqs.DistinctKeys(EntryId, library)
    requires Seqs.Distinct(bought)
    requires forall k :: 0 <= k < |bought| ==> !Owns(library, bought[k])
    ensures Seqs.DistinctKeys(EntryId, library + EntriesFor(bought, catalog, now))
  {
    var es := EntriesFor(bought, catalog, now);
    var lib := library + es;
    var n := |library|;
    forall i, j | 0 <= i < j < |lib|
      ensures EntryId(lib[i]) != EntryId(lib[j])
    {
      if j < n {
        assert lib[i] == library[i] && lib[j] == library[j];
        assert EntryId(library[i]) != EntryId(library[j]);
      } else if i < n {
        assert lib[j] == es[j - n] && lib[j].id == bought[j - n];
        assert lib[i] == library[i];
      } else {
        assert lib[i] == es[i - n] && lib[j] == es[j - n];
        assert Seqs.Self(bought[i - n]) != Seqs.Self(bought[j - n]);
      }
    }
  }

  /** Checking out keeps a consistent user consistent: bought products are
      distinct and new, and the cart is emptied. */
  lemma CommitKeepsConsistent(before: User, catalog: Catalog, now: string, credit: Money,
                              total: Money, payment: PaymentMethod, after: Step<CheckoutOutcome>)
    requires Consistent(before)
    requires Committed(before, catalog, now, credit, total, payment, after)
    ensures Consistent(after.user)
  {
    var bought := NewIds(before);
    FreshMembers(CartIds(before.cart), LibraryIds(before.library));
    FreshDistinct(CartIds(before.cart), LibraryIds(before.library));
    forall k | 0 <= k < |bought|
      ensures !Owns(before.library, bought[k])
    {
      assert bought[k] in bought;
    }
    AppendKeepsDistinct(before.library, bought, catalog, now);
  }

  lemma CheckoutKeepsConsistent(user: User, catalog: Catalog, req: Request<PaymentForm>,
                                cardReq: Request<CardForm>, today: Today, now: string)
    requires Consistent(user)
    ensures Consistent(BuyCart(user, catalog, req, now).user)
    ensures Consistent(PayByCard(user, catalog, cardReq, today, now).user)
  {
    var r := BuyCart(user, catalog, req, now);
    if r.outcome.Bought? {
      var total := CheckoutTotal(user.cart);
      var credit := if r.outcome.purchase.payment == Credito then user.credit - total else user.credit;
      CommitKeepsConsistent(user, catalog, now, credit, total, r.outcome.purchase.payment, r);
    }
    var c := PayByCard(user, catalog, cardReq, today, now);
    if c.outcome.Bought? {
      CommitKeepsConsistent(user, catalog, now, user.credit, CardTotal(user.cart), Tarjeta, c);
    }
  }
}
