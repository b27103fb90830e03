/** The checkout hand-off (src/hooks/usePagoMercadoPago.ts): the guard
    order of `handlePagar` and the order details it posts. The request's
    settlement is a parameter; navigation, the posted bodies and the final
    browser redirect are recorded as state. */
module PagoMercadoPago {
  import opened Wrappers
  import opened Types
  import Seqs

  /** One entry of the `detalles` payload. `cantidad` is the raw
      `quantity`, absent when the line has none. */
  datatype Detalle = Detalle(productoId: int, cantidad: Option<int>, precio: real)

  function ADetalle(p: Producto): Detalle
  {
    Detalle(p.id, p.quantity, p.precio)
  }

  /** `carrito.map(p => ({ productoId: p.id, cantidad: p.quantity, precio: p.precio }))` */
  function Detalles(carrito: seq<Producto>): seq<Detalle>
  {
    Seqs.Map(carrito, ADetalle)
  }

  /** One entry per cart line, in cart order, carrying the base price. */
  lemma DetallesSpec(carrito: seq<Producto>)
    ensures |Detalles(carrito)| == |carrito|
    ensures forall i :: 0 <= i < |carrito| ==>
      Detalles(carrito)[i] == Detalle(carrito[i].id, carrito[i].quantity, carrito[i].precio)
  {
  }

  /** Two carts that differ only outside id, quantity and base price (for
      instance in `precioFinal`, the discounted price shown to the user)
      post the same payload. */
  lemma PrecioFinalIgnorado(a: seq<Producto>, b: seq<Producto>)
    requires |a| == |b|
    requires forall i :: 0 <= i < |a| ==>
      a[i].id == b[i].id && a[i].quantity == b[i].quantity && a[i].precio == b[i].precio
    ensures Detalles(a) == Detalles(b)
  {
  }

  /** The settled `fetch`: `Err` when it rejects, else the response's `ok`
      flag and the `init_point` of its body. */
  datatype Respuesta = Respuesta(ok: bool, initPoint: string)

  const PagoError := "Error al generar preferencia de pago"

  class Checkout {
    var navegaciones: seq<string>     // router `navigate` calls
    var enviados: seq<seq<Detalle>>   // bodies POSTed to realizarPedidoConPago
    var location: Option<string>      // `window.location.href` once set

    constructor ()
      ensures navegaciones == [] && enviados == [] && location == None
    {
      navegaciones, enviados, location := [], [], None;
    }

    /** A rejected request, a response without `ok`, and a settled one
        all leave `navegaciones` alone; only a successful one redirects. */
    method HandlePagar(loading: bool, user: Option<Usuario>, carrito: seq<Producto>, res: Result<Respuesta>)
      returns (r: Outcome)
      modifies this
      ensures loading ==>
        r == Pass && navegaciones == old(navegaciones) && enviados == old(enviados) && location == old(location)
      ensures !loading && user.None? ==>
        r == Pass && navegaciones == old(navegaciones) + ["/login"] && enviados == old(enviados) && location == old(location)
      ensures !loading && user.Some? ==>
        navegaciones == old(navegaciones) && enviados == old(enviados) + [Detalles(carrito)]
      ensures !loading && user.Some? && res.Ok? && res.value.ok ==>
        r == Pass && location == Some(res.value.initPoint)
      ensures !loading && user.Some? && res.Ok? && !res.value.ok ==>
        r == Fail(PagoError) && location == old(location)
      ensures !loading && user.Some? && res.Err? ==>
        r == Fail(res.message) && location == old(location)
    {
      if loading {
        return Pass;
      }
      if user.None? {
        navegaciones := navegaciones + ["/login"];
        return Pass;
      }
      enviados := enviados + [Detalles(carrito)];
      if res.Err? {
        return Fail(res.message);
      }
      if !res.value.ok {
        return Fail(PagoError);
      }
      location := Some(res.value.initPoint);
      r := Pass;
    }
  }
}
