/** The account views that move credit outside checkout: topping up the
    balance, and returning a product from the library. */
module Account {

  import opened Options
  import opened Money
  import opened Models
  import opened Forms
  import Seqs

  // ---------------------------------------------------------------------
  // Top-up
  // ---------------------------------------------------------------------

  datatype TopUpOutcome = ShowTopUpForm | CreditAdded(amount: Money2)

  /** Adds a validated amount to the balance and saves; anything else just
      shows the form. No lower bound is applied to the amount. */
  function TopUp(user: User, req: Request<TopUpForm>, today: Today): (r: Step<TopUpOutcome>)
    ensures r.outcome.CreditAdded? <==> req.Submit? && CleanTopUpForm(req.form, today).Some?
    ensures r.outcome.CreditAdded? ==>
      && FitsDecimal10x2(r.outcome.amount)
      && req.form.amount == Some(r.outcome.amount)
      && r.user == user.(credit := user.credit + r.outcome.amount)
    ensures r.outcome == ShowTopUpForm ==> r.user == user
  {
    match req
    case Show => Step(user, ShowTopUpForm)
    case Submit(form) =>
      match CleanTopUpForm(form, today)
      case None => Step(user, ShowTopUpForm)
      case Some(amount) => Step(user.(credit := user.credit + amount), CreditAdded(amount))
  }

  /** The declared minimum of the balance is not enforced: a valid negative
      top-up takes a zero balance below zero. */
  lemma TopUpCanGoNegative()
    ensures var form := TopUpForm(Some(-50 * Peso), "Ana", "4000", Some(1), Some(2030), "123");
      var r := TopUp(NewUser(), Submit(form), Today(2026, 10));
      r.outcome.CreditAdded? && r.user.credit == -50 * Peso && !CreditFieldValid(r.user.credit)
  {
    NegativeTopUpAccepted();
  }

  /** Two accepted top-ups give the same user in either order, and the
      balance rises by both amounts. */
  lemma TopUpsCommute(user: User, f: TopUpForm, g: TopUpForm, today: Today)
    requires CleanTopUpForm(f, today).Some? && CleanTopUpForm(g, today).Some?
    ensures TopUp(TopUp(user, Submit(f), today).user, Submit(g), today).user
         == TopUp(TopUp(user, Submit(g), today).user, Submit(f), today).user
    ensures TopUp(TopUp(user, Submit(f), today).user, Submit(g), today).user.credit
         == user.credit + f.amount.value + g.amount.value
  {
  }

  // ---------------------------------------------------------------------
  // Refund
  // ---------------------------------------------------------------------

  datatype RefundOutcome = RefundProductMissing | NotInLibrary | ShowRefundPage | Refunded

  /** The test that keeps every library entry not carrying `id`. */
  function OtherProduct(id: ProductId): LibraryEntry -> bool {
    (e: LibraryEntry) => e.id != id
  }

  /** The library without any entry for `id`, other entries in order. */
  function WithoutProduct(library: seq<LibraryEntry>, id: ProductId): (r: seq<LibraryEntry>)
    ensures !Owns(r, id)
    ensures forall i :: 0 <= i < |r| ==> r[i] in library
    ensures forall i :: 0 <= i < |library| && library[i].id != id ==> library[i] in r
  {
    var r := Seqs.Filter(OtherProduct(id), library);
    assert forall i :: 0 <= i < |r| ==> r[i].id != id by {
      forall i | 0 <= i < |r|
        ensures r[i].id != id
      {
        assert OtherProduct(id)(r[i]);
      }
    }
    r
  }

  /** Removal works entry by entry: removing from two joined libraries is
      removing from each, so the kept entries stay in their order. */
  lemma WithoutProductKeepsOrder(a: seq<LibraryEntry>, b: seq<LibraryEntry>, id: ProductId)
    ensures WithoutProduct(a + b, id) == WithoutProduct(a, id) + WithoutProduct(b, id)
  {
    Seqs.FilterConcat(OtherProduct(id), a, b);
  }

  /** A single entry is dropped iff it carries the product. */
  lemma WithoutProductSingle(e: LibraryEntry, id: ProductId)
    ensures WithoutProduct([e], id) == if e.id == id then [] else [e]
  {
    assert [e][1..] == [];
  }

  /** A library without the product is left as it is. */
  lemma WithoutProductAbsent(library: seq<LibraryEntry>, id: ProductId)
    requires !Owns(library, id)
    ensures WithoutProduct(library, id) == library
  {
    forall i | 0 <= i < |library|
      ensures OtherProduct(id)(library[i])
    {
    }
    Seqs.FilterKeepsAll(OtherProduct(id), library);
  }

  /** Returning a product. The product must exist (404 otherwise) and be in
      the library. A POST with method "credito" drops every library entry
      for it and credits the product's current catalog price; "tarjeta"
      drops them and leaves the balance alone (the payout is simulated and
      the bank fields are not checked); any other method saves nothing and
      shows the page again. */
  function ReturnProduct(user: User, catalog: Catalog, id: ProductId, req: Request<Option<string>>): (r: Step<RefundOutcome>)
    ensures r.outcome == RefundProductMissing <==> id !in catalog
    ensures r.outcome == NotInLibrary <==> id in catalog && !Owns(user.library, id)
    ensures r.outcome != Refunded ==> r.user == user
    ensures r.outcome == Refunded <==>
      id in catalog && Owns(user.library, id) && req.Submit? && req.form in {Some("credito"), Some("tarjeta")}
    ensures r.outcome == Refunded ==>
      && r.user.cart == user.cart
      && r.user.library == WithoutProduct(user.library, id)
      && r.user.credit == (if req.form == Some("credito") then user.credit + catalog[id].price else user.credit)
  {
    if id !in catalog then Step(user, RefundProductMissing)
    else if !Owns(user.library, id) then Step(user, NotInLibrary)
    else
      match req
      case Show => Step(user, ShowRefundPage)
      case Submit(choice) =>
        var library := WithoutProduct(user.library, id);
        if choice == Some("credito") then
          Step(User(user.cart, library, user.credit + catalog[id].price), Refunded)
        else if choice == Some("tarjeta") then
          Step(User(user.cart, library, user.credit), Refunded)
        else Step(user, ShowRefundPage)
  }

  /** Returning keeps a consistent user consistent. */
  lemma ReturnKeepsConsistent(user: User, catalog: Catalog, id: ProductId, req: Request<Option<string>>)
    requires Consistent(user)
    ensures Consistent(ReturnProduct(user, catalog, id, req).user)
  {
    var r := ReturnProduct(user, catalog, id, req);
    if r.outcome == Refunded {
      assert Seqs.DistinctKeys(EntryId, user.library);
      Seqs.FilterDistinctKeys(OtherProduct(id), EntryId, user.library);
    }
  }

  /** With no negative prices, a return never lowers the balance. */
  lemma ReturnNeverLowersCredit(user: User, catalog: Catalog, id: ProductId, req: Request<Option<string>>)
    requires forall k :: k in catalog ==> catalog[k].price >= 0
    ensures ReturnProduct(user, catalog, id, req).user.credit >= user.credit
  {
  }
}
