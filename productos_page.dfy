/** The catalogue page (src/pages/Productos.tsx): its page-local cart,
    which it keeps beside the cart context and saves under its own storage
    key, and its price display. */
module ProductosPage {
  import opened Wrappers
  import opened Types
  import Seqs
  import CarritoContext

  /** The `setCart` updater of `addToCart`. */
  function AddToCartLocal(prev: seq<Producto>, product: Producto): seq<Producto>
  {
    var found := Seqs.Find(prev, (p: Producto) => p.id == product.id);
    if found.Some? then
      Seqs.MapWhere(prev, (p: Producto) => p.id == product.id,
                          (p: Producto) => p.(quantity := Some(CarritoContext.Qty(p) + 1)))
    else prev + [product.(quantity := Some(1))]
  }

  /** The page-local update and the context's `agregarProducto` compute the
      same list from the same list. */
  lemma SameAsContext(prev: seq<Producto>, product: Producto)
    ensures AddToCartLocal(prev, product) == CarritoContext.Agregado(prev, product)
  {
  }

  /** An id already present gets `(quantity || 1) + 1` in place and the
      length is kept; a new id is appended with quantity 1; unique ids and
      positive quantities survive either way. */
  lemma AddToCartLocalSpec(prev: seq<Producto>, product: Producto)
    ensures CarritoContext.HasId(prev, product.id) ==>
      && |AddToCartLocal(prev, product)| == |prev|
      && forall i :: 0 <= i < |prev| ==>
           (AddToCartLocal(prev, product)[i] ==
              if prev[i].id == product.id
              then prev[i].(quantity := Some(CarritoContext.Qty(prev[i]) + 1))
              else prev[i])
    ensures !CarritoContext.HasId(prev, product.id) ==>
      AddToCartLocal(prev, product) == prev + [product.(quantity := Some(1))]
    ensures CarritoContext.WellFormed(prev) ==> CarritoContext.WellFormed(AddToCartLocal(prev, product))
  {
    SameAsContext(prev, product);
    if CarritoContext.HasId(prev, product.id) {
      forall i | 0 <= i < |prev| ensures AddToCartLocal(prev, product)[i] ==
           if prev[i].id == product.id
           then prev[i].(quantity := Some(CarritoContext.Qty(prev[i]) + 1))
           else prev[i] {
        CarritoContext.IncrementadoAt(prev, product.id, i);
      }
    }
    if CarritoContext.WellFormed(prev) {
      CarritoContext.AgregadoPreserva(prev, product);
    }
  }

  /** Lines 65-66 compute `precioOriginal` and `precioFinal` from the same
      expression, so the struck-through original price (line 111) is never
      shown. */
  function MuestraTachado(producto: Producto): (r: bool)
    ensures !r
  {
    var precioOriginal := CarritoContext.PrecioUnitario(producto);
    var precioFinal := CarritoContext.PrecioUnitario(producto);
    precioFinal < precioOriginal
  }

  /** The struck-through price the card evidently means to show: the base
      `precio`, only when the sale price is below it. */
  function PrecioTachado(producto: Producto): (r: Option<real>)
    ensures r.Some? <==> producto.precioFinal.Some? && producto.precioFinal.value < producto.precio
    ensures r.Some? ==> r.value == producto.precio && CarritoContext.PrecioUnitario(producto) < r.value
  {
    if CarritoContext.PrecioUnitario(producto) < producto.precio then Some(producto.precio) else None
  }

  /** The page's local cart. `stored` is the "cart" entry of browser
      storage, rewritten by an effect whenever the cart changes. */
  class Page {
    var cart: seq<Producto>
    ghost var stored: Option<seq<Producto>>

    constructor (persisted: Option<seq<Producto>>)
      ensures cart == [] && stored == persisted
    {
      cart := [];
      stored := persisted;
    }

    /** The two mount effects: load the saved cart when there is one, then
        save the resulting cart. */
    method Mount(saved: Option<seq<Producto>>)
      requires saved == stored
      modifies this
      ensures cart == saved.GetOr(old(cart))
      ensures stored == Some(cart)
    {
      if saved.Some? {
        cart := saved.value;
      }
      stored := Some(cart);
    }

    /** `addToCart`: the local update, then the context's
        `agregarProducto`. Two carts that start equal stay equal. */
    method AddToCart(product: Producto, ctx: CarritoContext.CarritoProvider)
      modifies this, ctx
      ensures cart == AddToCartLocal(old(cart), product) && stored == Some(cart)
      ensures ctx.carrito == CarritoContext.Agregado(old(ctx.carrito), product)
      ensures ctx.stored == Some(ctx.carrito) && ctx.isOpen == old(ctx.isOpen)
      ensures old(cart) == old(ctx.carrito) ==> cart == ctx.carrito
    {
      cart := AddToCartLocal(cart, product);
      stored := Some(cart);
      ctx.AgregarProducto(product);
      SameAsContext(old(cart), product);
    }
  }
}
