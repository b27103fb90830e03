/** The shopping cart held by the cart context provider
    (src/contex/CarritoContext.tsx.tsx): a list of product lines keyed by
    `id`, rewritten as a whole by every mutator and written through to
    browser storage. The pure functions give each mutator's new list; the
    class holds the provider's state. */
module CarritoContext {
  import opened Wrappers
  import opened Types
  import Seqs

  /** The key of a line. */
  function Id(l: Producto): int
  {
    l.id
  }

  /** `p.quantity || 1`: a missing quantity and a quantity of 0 both count
      as 1. */
  function Qty(p: Producto): int
  {
    match p.quantity
    case None => 1
    case Some(q) => if q == 0 then 1 else q
  }

  /** `p.precioFinal ?? p.precio` */
  function PrecioUnitario(p: Producto): real
  {
    p.precioFinal.GetOr(p.precio)
  }

  /** `carrito.find(item => item.id === id)` is a (truthy) line. */
  predicate HasId(c: seq<Producto>, id: int)
  {
    Seqs.Find(c, (l: Producto) => l.id == id).Some?
  }

  function Incrementado(c: seq<Producto>, id: int): seq<Producto>
  {
    Seqs.MapWhere(c, (l: Producto) => l.id == id, (l: Producto) => l.(quantity := Some(Qty(l) + 1)))
  }

  function Decrementado(c: seq<Producto>, id: int): seq<Producto>
  {
    Seqs.MapWhere(c, (l: Producto) => l.id == id && Qty(l) > 1,
                     (l: Producto) => l.(quantity := Some(Qty(l) - 1)))
  }

  function Eliminado(c: seq<Producto>, id: int): seq<Producto>
  {
    Seqs.Filter(c, (l: Producto) => l.id != id)
  }

  function Agregado(c: seq<Producto>, p: Producto): seq<Producto>
  {
    if HasId(c, p.id) then Incrementado(c, p.id) else c + [p.(quantity := Some(1))]
  }

  /** One line's contribution to the total. */
  function Subtotal(p: Producto): real
  {
    PrecioUnitario(p) * (Qty(p) as real)
  }

  /** `c.reduce((acc, p) => acc + Subtotal(p), acc)`: a left fold. */
  function Reduce(acc: real, c: seq<Producto>): real
    decreases |c|
  {
    if c == [] then acc else Reduce(acc + Subtotal(c[0]), c[1..])
  }

  /** The context's `total`, the fold started at 0. */
  function Total(c: seq<Producto>): real
  {
    Reduce(0.0, c)
  }

  /** The cart invariant: ids are unique and every quantity is at least 1. */
  ghost predicate WellFormed(c: seq<Producto>)
  {
    && Seqs.UniqueBy(c, Id)
    && forall i :: 0 <= i < |c| ==> Qty(c[i]) >= 1
  }

  lemma HasIdAt(c: seq<Producto>, id: int)
    ensures HasId(c, id) <==> exists i :: 0 <= i < |c| && c[i].id == id
  {
    var k := Seqs.FindIndex(c, (l: Producto) => l.id == id);
    if k.Some? {
      assert c[k.value].id == id;
    }
  }

  /** A new id is appended as one line at the end with quantity 1, whatever
      quantity the incoming product carried. */
  lemma AgregarNuevo(c: seq<Producto>, p: Producto, q: Option<int>)
    requires !HasId(c, p.id)
    ensures |Agregado(c, p)| == |c| + 1
    ensures Agregado(c, p)[..|c|] == c
    ensures Agregado(c, p)[|c|] == p.(quantity := Some(1))
    ensures Agregado(c, p.(quantity := q)) == Agregado(c, p)
  {
  }

  /** Adding a product already in the cart is `incrementar` of its id; the
      length is unchanged and the incoming quantity is ignored. */
  lemma AgregarExistente(c: seq<Producto>, p: Producto, q: Option<int>)
    requires HasId(c, p.id)
    ensures Agregado(c, p) == Incrementado(c, p.id)
    ensures |Agregado(c, p)| == |c|
    ensures Agregado(c, p.(quantity := q)) == Agregado(c, p)
  {
  }

  /** `incrementar(id)`: the matching lines get `(quantity || 1) + 1`, every
      other line stays where and as it was. */
  lemma IncrementadoAt(c: seq<Producto>, id: int, i: int)
    requires 0 <= i < |c|
    ensures |Incrementado(c, id)| == |c|
    ensures Incrementado(c, id)[i] ==
      if c[i].id == id then c[i].(quantity := Some(Qty(c[i]) + 1)) else c[i]
  {
    Seqs.MapWhereAt(c, (l: Producto) => l.id == id, (l: Producto) => l.(quantity := Some(Qty(l) + 1)), i);
  }

  /** `incrementar` of an absent id leaves the cart unchanged. */
  lemma IncrementadoAusente(c: seq<Producto>, id: int)
    requires !HasId(c, id)
    ensures Incrementado(c, id) == c
  {
    HasIdAt(c, id);
    Seqs.MapWhereNoneSelected(c, (l: Producto) => l.id == id, (l: Producto) => l.(quantity := Some(Qty(l) + 1)));
  }

  /** `decrementar(id)` lowers a matching line by one only when its
      quantity is above 1; at 1 nothing changes and no line is removed. */
  lemma DecrementadoAt(c: seq<Producto>, id: int, i: int)
    requires 0 <= i < |c|
    ensures |Decrementado(c, id)| == |c|
    ensures Decrementado(c, id)[i] ==
      if c[i].id == id && Qty(c[i]) > 1 then c[i].(quantity := Some(Qty(c[i]) - 1)) else c[i]
    ensures Decrementado(c, id)[i].id == c[i].id
  {
    Seqs.MapWhereAt(c, (l: Producto) => l.id == id && Qty(l) > 1,
                       (l: Producto) => l.(quantity := Some(Qty(l) - 1)), i);
  }

  /** `eliminarProducto(id)` drops exactly the lines with that id. */
  lemma EliminadoSpec(c: seq<Producto>, id: int)
    ensures forall l :: l in Eliminado(c, id) <==> l in c && l.id != id
    ensures !HasId(c, id) ==> Eliminado(c, id) == c
  {
    if !HasId(c, id) {
      HasIdAt(c, id);
      Seqs.FilterKeepsAll(c, (l: Producto) => l.id != id);
    }
  }

  /** ... and keeps the remaining lines in their original order. */
  lemma EliminadoConcat(a: seq<Producto>, b: seq<Producto>, id: int)
    ensures Eliminado(a + b, id) == Eliminado(a, id) + Eliminado(b, id)
  {
    Seqs.FilterConcat(a, b, (l: Producto) => l.id != id);
  }

  lemma IncrementadoPreserva(c: seq<Producto>, id: int)
    requires WellFormed(c)
    ensures WellFormed(Incrementado(c, id))
  {
    var r := Incrementado(c, id);
    forall i | 0 <= i < |c| ensures r[i].id == c[i].id && Qty(r[i]) >= 1 {
      IncrementadoAt(c, id, i);
    }
  }

  lemma DecrementadoPreserva(c: seq<Producto>, id: int)
    requires WellFormed(c)
    ensures WellFormed(Decrementado(c, id))
  {
    var r := Decrementado(c, id);
    forall i | 0 <= i < |c| ensures r[i].id == c[i].id && Qty(r[i]) >= 1 {
      DecrementadoAt(c, id, i);
    }
  }

  lemma EliminadoPreserva(c: seq<Producto>, id: int)
    requires WellFormed(c)
    ensures WellFormed(Eliminado(c, id))
  {
    Seqs.FilterUnique(c, (l: Producto) => l.id != id, Id);
    var r := Eliminado(c, id);
    forall i | 0 <= i < |r| ensures Qty(r[i]) >= 1 {
      assert r[i] in c;
    }
  }

  lemma AgregadoPreserva(c: seq<Producto>, p: Producto)
    requires WellFormed(c)
    ensures WellFormed(Agregado(c, p))
  {
    if HasId(c, p.id) {
      IncrementadoPreserva(c, p.id);
    } else {
      HasIdAt(c, p.id);
    }
  }

  /** The fold's accumulator only shifts the result. */
  lemma {:induction false} ReduceAcc(acc: real, c: seq<Producto>)
    ensures Reduce(acc, c) == acc + Total(c)
    decreases |c|
  {
    if c != [] {
      ReduceAcc(acc + Subtotal(c[0]), c[1..]);
      ReduceAcc(Subtotal(c[0]), c[1..]);
      assert Total(c) == Reduce(0.0 + Subtotal(c[0]), c[1..]);
    }
  }

  /** `total` is 0 on the empty cart and additive over concatenation. */
  lemma {:induction false} TotalConcat(a: seq<Producto>, b: seq<Producto>)
    ensures Total([]) == 0.0
    ensures Total(a + b) == Total(a) + Total(b)
  {
    if a == [] {
      assert a + b == b;
    } else {
      assert (a + b)[0] == a[0];
      assert (a + b)[1..] == a[1..] + b;
      TotalConcat(a[1..], b);
      ReduceAcc(Subtotal(a[0]), a[1..] + b);
      ReduceAcc(Subtotal(a[0]), a[1..]);
    }
  }

  lemma TotalSplit(pre: seq<Producto>, x: Producto, post: seq<Producto>)
    ensures Total(pre + [x] + post) == Total(pre) + Subtotal(x) + Total(post)
  {
    TotalConcat(pre + [x], post);
    TotalConcat(pre, [x]);
    assert [x][1..] == [];
    assert Total([x]) == Reduce(0.0 + Subtotal(x), []);
  }

  /** With unique ids, `incrementar` of line k's id rewrites line k only. */
  lemma IncrementadoUnico(c: seq<Producto>, k: int)
    requires Seqs.UniqueBy(c, Id) && 0 <= k < |c|
    ensures Incrementado(c, c[k].id)
         == c[..k] + [c[k].(quantity := Some(Qty(c[k]) + 1))] + c[k + 1..]
  {
    var r := Incrementado(c, c[k].id);
    var s := c[..k] + [c[k].(quantity := Some(Qty(c[k]) + 1))] + c[k + 1..];
    forall i | 0 <= i < |c| ensures r[i] == s[i] {
      IncrementadoAt(c, c[k].id, i);
    }
  }

  /** In a well-formed cart, `incrementar` of a present id raises the total
      by exactly that line's unit price. */
  lemma TotalIncrementado(c: seq<Producto>, k: int)
    requires WellFormed(c) && 0 <= k < |c|
    ensures Total(Incrementado(c, c[k].id)) == Total(c) + PrecioUnitario(c[k])
  {
    var x := c[k];
    var x' := x.(quantity := Some(Qty(x) + 1));
    var pre, post := c[..k], c[k + 1..];
    IncrementadoUnico(c, k);
    assert c == pre + [x] + post;
    TotalSplit(pre, x, post);
    TotalSplit(pre, x', post);
    var u, q := PrecioUnitario(x), Qty(x) as real;
    assert PrecioUnitario(x') == u && Qty(x') as real == q + 1.0;
    assert u * (q + 1.0) == u * q + u;
  }

  /** The cart context provider. `stored` is the "carrito" entry of browser
      storage (`None` when the key is absent). */
  class CarritoProvider {
    var carrito: seq<Producto>
    var isOpen: bool
    ghost var stored: Option<seq<Producto>>

    /** Mount: empty state, whatever the storage holds. */
    constructor (persisted: Option<seq<Producto>>)
      ensures carrito == [] && !isOpen && stored == persisted
    {
      carrito := [];
      isOpen := false;
      stored := persisted;
    }

    /** The mount effect: load the stored list, `[]` when the key is
        absent; the entry itself is not rewritten. */
    method Hydrate(saved: Option<seq<Producto>>)
      requires saved == stored
      modifies this
      ensures carrito == saved.GetOr([])
      ensures stored == old(stored) && isOpen == old(isOpen)
    {
      carrito := saved.GetOr([]);
    }

    /** `guardar`: replace the state and write it through to storage. */
    method Guardar(nuevo: seq<Producto>)
      modifies this
      ensures carrito == nuevo && stored == Some(nuevo) && isOpen == old(isOpen)
    {
      carrito := nuevo;
      stored := Some(nuevo);
    }

    method AgregarProducto(p: Producto)
      modifies this
      ensures carrito == Agregado(old(carrito), p)
      ensures stored == Some(carrito) && isOpen == old(isOpen)
    {
      var existe := Seqs.Find(carrito, (item: Producto) => item.id == p.id);
      if existe.Some? {
        Incrementar(p.id);
      } else {
        Guardar(carrito + [p.(quantity := Some(1))]);
      }
    }

    method EliminarProducto(id: int)
      modifies this
      ensures carrito == Eliminado(old(carrito), id)
      ensures stored == Some(carrito) && isOpen == old(isOpen)
    {
      Guardar(Seqs.Filter(carrito, (l: Producto) => l.id != id));
    }

    method Incrementar(id: int)
      modifies this
      ensures carrito == Incrementado(old(carrito), id)
      ensures stored == Some(carrito) && isOpen == old(isOpen)
    {
      Guardar(Incrementado(carrito, id));
    }

    method Decrementar(id: int)
      modifies this
      ensures carrito == Decrementado(old(carrito), id)
      ensures stored == Some(carrito) && isOpen == old(isOpen)
    {
      Guardar(Decrementado(carrito, id));
    }

    method ToggleCart()
      modifies this
      ensures isOpen == !old(isOpen)
      ensures carrito == old(carrito) && stored == old(stored)
    {
      isOpen := !isOpen;
    }
  }
}
