/** Record shapes and defaults of the storefront's models: products in the
    catalog, the user's cart, library and credit, and purchase records. */
module Models {

  import opened Options
  import opened Money
  import Seqs

  /** Primary keys; URLs carry them through an `<int:...>` converter, so
      they are never negative. */
  type ProductId = nat

  /** `Producto.tipo`: one of three declared choices. */
  datatype ProductKind = Juego | Dlc | Membresia

  function KindLabel(k: ProductKind): string {
    match k
    case Juego => "Juego"
    case Dlc => "DLC"
    case Membresia => "Membresía"
  }

  /** Reads a stored `tipo` back; anything outside the declared choices is
      `None`. */
  function ParseKind(s: string): (r: Option<ProductKind>)
    ensures r.Some? ==> KindLabel(r.value) == s
    ensures r.None? ==> forall k: ProductKind :: KindLabel(k) != s
  {
    if s == "Juego" then Some(Juego)
    else if s == "DLC" then Some(Dlc)
    else if s == "Membresía" then Some(Membresia)
    else None
  }

  lemma KindRoundTrip(k: ProductKind)
    ensures ParseKind(KindLabel(k)) == Some(k)
  {
  }

  /** A catalog product, reduced to the fields the cart, checkout and refund
      read. The price is a two-decimal `DecimalField`; no validator forbids a
      negative one. */
  datatype Product = Product(name: string, kind: ProductKind, price: Money2, available: bool)

  /** Live catalog: what `get_object_or_404(Producto, pk=...)` can find. */
  type Catalog = map<ProductId, Product>

  /** One cart line `{id_producto, nombre, precio}`; name and price are
      snapshots taken when the line was added. */
  datatype CartLine = CartLine(id: ProductId, name: string, price: Money2)

  /** One library entry `{id_producto, nombre, fecha_compra}`. */
  datatype LibraryEntry = LibraryEntry(id: ProductId, name: string, acquiredAt: string)

  /** One purchase detail line `{id_producto, nombre}`. */
  datatype Detail = Detail(id: ProductId, name: string)

  /** The three payment methods the views use. `Compra.metodo_pago` declares
      only the first as a choice, but nothing checks the choice when the
      views create a purchase. */
  datatype PaymentMethod = Tarjeta | Efectivo | Credito

  /** `Compra.estatus`: the only declared value, also its default. */
  datatype PurchaseStatus = Completada

  /** A `Compra` row. The total is kept exactly as the view computed it. */
  datatype Purchase = Purchase(details: seq<Detail>, total: Money, payment: PaymentMethod, status: PurchaseStatus)

  /** The part of `Usuario` the store touches. */
  datatype User = User(cart: seq<CartLine>, library: seq<LibraryEntry>, credit: Money)

  /** The declared constraints of `Usuario.credito`: two decimals, ten digits,
      and a `MinValueValidator(0.00)`. Nothing runs the validator when the
      views save, so this is a property a balance may or may not have. */
  predicate CreditFieldValid(credit: Money) {
    FitsDecimal10x2(credit) && credit >= 0
  }

  /** A freshly created user: empty library, empty cart, credit 0.00. */
  function NewUser(): (u: User)
    ensures u.cart == [] && u.library == []
    ensures u.credit == 0 && CreditFieldValid(u.credit)
  {
    User([], [], 0)
  }

  /** What a view leaves behind: the user record as persisted afterwards
      (unchanged unless the view saved it) and the view's outcome. */
  datatype Step<O> = Step(user: User, outcome: O)

  /** A GET that shows a form, or a POST that submits one. */
  datatype Request<F> = Show | Submit(form: F)

  /** Some library entry carries this product id. */
  predicate Owns(library: seq<LibraryEntry>, id: ProductId) {
    exists i :: 0 <= i < |library| && library[i].id == id
  }

  /** Some cart line carries this product id. */
  predicate InCart(cart: seq<CartLine>, id: ProductId) {
    exists i :: 0 <= i < |cart| && cart[i].id == id
  }

  /** The ids of a library, as a set. */
  function LibraryIds(library: seq<LibraryEntry>): (r: set<ProductId>)
    ensures forall id :: id in r <==> Owns(library, id)
  {
    set i | 0 <= i < |library| :: library[i].id
  }

  /** The ids of a cart, in cart order. */
  function CartIds(cart: seq<CartLine>): (r: seq<ProductId>)
    ensures |r| == |cart|
    ensures forall i :: 0 <= i < |cart| ==> r[i] == cart[i].id
  {
    seq(|cart|, i requires 0 <= i < |cart| => cart[i].id)
  }

  /** The catalog name of a product, as `producto.nombre` reads it. */
  function NameOf(catalog: Catalog, id: ProductId): string {
    if id in catalog then catalog[id].name else ""
  }

  /** The product a cart line carries. */
  function LineId(line: CartLine): ProductId {
    line.id
  }

  /** The product a library entry carries. */
  function EntryId(e: LibraryEntry): ProductId {
    e.id
  }

  /** The shape the views rely on: a product appears at most once in the
      cart and at most once in the library, and never in both. */
  predicate Consistent(user: User) {
    && Seqs.DistinctKeys(LineId, user.cart)
    && Seqs.DistinctKeys(EntryId, user.library)
    && (forall i :: 0 <= i < |user.cart| ==> !Owns(user.library, user.cart[i].id))
  }
}
