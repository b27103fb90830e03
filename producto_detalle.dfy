/** The product detail page (src/pages/ProductoDetalle.tsx): the lookup of
    the product named by the route, the struck-through price, and the
    quantity picker whose value is handed to the cart context. */
module ProductoDetalle {
  import opened Wrappers
  import opened Types
  import Seqs
  import CarritoContext

  function Digit(d: nat): (c: char)
    requires d < 10
    ensures '0' <= c <= '9'
  {
    (48 + d) as char
  }

  /** The decimal digits of `n`, most significant first. */
  function Decimal(n: nat): (s: string)
    ensures |s| >= 1
    ensures forall i :: 0 <= i < |s| ==> '0' <= s[i] <= '9'
    ensures n < 10 <==> |s| == 1
  {
    if n < 10 then [Digit(n)] else Decimal(n / 10) + [Digit(n % 10)]
  }

  /** `String(id)` for an integer id. */
  function IdString(id: int): string
  {
    if id < 0 then "-" + Decimal(-id) else Decimal(id)
  }

  lemma {:induction false} DecimalInjective(a: nat, b: nat)
    requires Decimal(a) == Decimal(b)
    ensures a == b
    decreases a
  {
    if a >= 10 && b >= 10 {
      var da, db := Decimal(a), Decimal(b);
      assert da[..|da| - 1] == Decimal(a / 10);
      assert db[..|db| - 1] == Decimal(b / 10);
      assert Digit(a % 10) == da[|da| - 1] == db[|db| - 1] == Digit(b % 10);
      DecimalInjective(a / 10, b / 10);
    }
  }

  /** Only negative ids print with a leading '-'. */
  lemma IdStringSign(id: int)
    ensures |IdString(id)| >= 1
    ensures IdString(id)[0] == '-' <==> id < 0
  {
  }

  /** Different ids print differently. */
  lemma IdStringInjective(a: int, b: int)
    requires IdString(a) == IdString(b)
    ensures a == b
  {
    IdStringSign(a);
    IdStringSign(b);
    if a < 0 {
      assert Decimal(-a) == IdString(a)[1..];
      assert Decimal(-b) == IdString(b)[1..];
      DecimalInjective(-a, -b);
    } else {
      DecimalInjective(a, b);
    }
  }

  /** `productos.find(p => String(p.id) === id)`, `None` when the route has
      no id parameter or no product matches. */
  function Buscar(productos: seq<Producto>, routeId: Option<string>): Option<Producto>
  {
    Seqs.Find(productos, (p: Producto) => Some(IdString(p.id)) == routeId)
  }

  /** The product shown for the route of id `k` is the first product with
      id `k`; without an id parameter nothing is found ("Producto no
      encontrado"). */
  lemma BuscarPorId(productos: seq<Producto>, k: int)
    ensures Buscar(productos, Some(IdString(k))) == Seqs.Find(productos, (p: Producto) => p.id == k)
    ensures Buscar(productos, None) == None
  {
    forall i | 0 <= i < |productos|
      ensures (Some(IdString(productos[i].id)) == Some(IdString(k))) == (productos[i].id == k)
    {
      if IdString(productos[i].id) == IdString(k) {
        IdStringInjective(productos[i].id, k);
      }
    }
    Seqs.FindIndexAgree(productos, (p: Producto) => Some(IdString(p.id)) == Some(IdString(k)),
                        productos, (p: Producto) => p.id == k);
  }

  /** `precioFinal < producto.precio` with `precioFinal = producto.precioFinal ?? producto.precio`. */
  function MuestraTachado(producto: Producto): (r: bool)
    ensures r <==> producto.precioFinal.Some? && producto.precioFinal.value < producto.precio
  {
    CarritoContext.PrecioUnitario(producto) < producto.precio
  }

  datatype Boton = Menos | Mas

  /** `setCantidad(c => Math.max(1, c - 1))` and `setCantidad(c => c + 1)`. */
  function Pulsar(c: int, b: Boton): (r: int)
    ensures b == Menos ==> r >= 1 && (c > 1 ==> r == c - 1) && (c <= 1 ==> r == 1)
    ensures b == Mas ==> r == c + 1
  {
    match b
    case Menos => if 1 >= c - 1 then 1 else c - 1
    case Mas => c + 1
  }

  function PulsarTodos(c: int, bs: seq<Boton>): int
    decreases |bs|
  {
    if bs == [] then c else PulsarTodos(Pulsar(c, bs[0]), bs[1..])
  }

  /** From the initial 1, no sequence of presses takes the quantity below 1. */
  lemma {:induction false} CantidadAlMenosUno(c: int, bs: seq<Boton>)
    requires c >= 1
    ensures PulsarTodos(c, bs) >= 1
    decreases |bs|
  {
    if bs != [] {
      CantidadAlMenosUno(Pulsar(c, bs[0]), bs[1..]);
    }
  }

  class Detalle {
    var cantidad: int

    constructor ()
      ensures cantidad == 1
    {
      cantidad := 1;
    }

    method Pulsa(b: Boton)
      modifies this
      ensures cantidad == Pulsar(old(cantidad), b)
    {
      match b {
        case Menos => cantidad := if 1 >= cantidad - 1 then 1 else cantidad - 1;
        case Mas => cantidad := cantidad + 1;
      }
    }

    /** "Agregar al carrito": the chosen quantity travels with the product,
        but the cart line still gets 1 (new) or one more (existing). */
    method AgregarAlCarrito(producto: Producto, ctx: CarritoContext.CarritoProvider)
      modifies ctx
      ensures ctx.carrito == CarritoContext.Agregado(old(ctx.carrito), producto.(quantity := Some(cantidad)))
      ensures ctx.carrito == CarritoContext.Agregado(old(ctx.carrito), producto)
      ensures ctx.stored == Some(ctx.carrito) && ctx.isOpen == old(ctx.isOpen)
    {
      ctx.AgregarProducto(producto.(quantity := Some(cantidad)));
      if CarritoContext.HasId(old(ctx.carrito), producto.id) {
        CarritoContext.AgregarExistente(old(ctx.carrito), producto, Some(cantidad));
      } else {
        CarritoContext.AgregarNuevo(old(ctx.carrito), producto, Some(cantidad));
      }
    }
  }
}
