/** The global zustand cart store (src/store/cartStore.ts): a plain list of
    products with no quantities, where adding the same product twice keeps
    two entries. */
module CartStore {
  import Seqs

  /** The store's own product shape. */
  datatype Item = Item(id: int, nombre: string, precio: real, imagen: string)

  /** `cart.filter(p => p.id !== id)` */
  function SinId(cart: seq<Item>, id: int): seq<Item>
  {
    Seqs.Filter(cart, (p: Item) => p.id != id)
  }

  /** Number of entries with a given id. */
  function Count(cart: seq<Item>, id: int): nat
  {
    if cart == [] then 0 else (if cart[0].id == id then 1 else 0) + Count(cart[1..], id)
  }

  lemma {:induction false} CountAppend(cart: seq<Item>, p: Item, id: int)
    ensures Count(cart + [p], id) == Count(cart, id) + (if p.id == id then 1 else 0)
  {
    if cart == [] {
      assert ([] + [p])[1..] == [];
    } else {
      assert (cart + [p])[1..] == cart[1..] + [p];
      CountAppend(cart[1..], p, id);
    }
  }

  /** Removing an id leaves no entry with that id and every other entry,
      in order; an absent id changes nothing. */
  lemma {:induction false} SinIdSpec(cart: seq<Item>, id: int)
    ensures Count(SinId(cart, id), id) == 0
    ensures forall x :: x in SinId(cart, id) <==> x in cart && x.id != id
    ensures Count(cart, id) == 0 ==> SinId(cart, id) == cart
    decreases |cart|
  {
    if cart != [] {
      SinIdSpec(cart[1..], id);
      if cart[0].id == id {
        assert SinId(cart, id) == SinId(cart[1..], id);
      } else {
        assert SinId(cart, id) == [cart[0]] + SinId(cart[1..], id);
      }
    }
  }

  lemma SinIdConcat(a: seq<Item>, b: seq<Item>, id: int)
    ensures SinId(a + b, id) == SinId(a, id) + SinId(b, id)
  {
    Seqs.FilterConcat(a, b, (p: Item) => p.id != id);
  }

  class Store {
    var cart: seq<Item>

    constructor ()
      ensures cart == []
    {
      cart := [];
    }

    /** `addToCart`: append, even when the id is already present. */
    method AddToCart(producto: Item)
      modifies this
      ensures cart == old(cart) + [producto]
      ensures |cart| == |old(cart)| + 1
      ensures Count(cart, producto.id) == Count(old(cart), producto.id) + 1
    {
      CountAppend(cart, producto, producto.id);
      cart := cart + [producto];
    }

    method RemoveFromCart(id: int)
      modifies this
      ensures cart == SinId(old(cart), id)
      ensures Count(cart, id) == 0
    {
      SinIdSpec(cart, id);
      cart := Seqs.Filter(cart, (p: Item) => p.id != id);
    }

    /** `clearCart`: always the empty cart, so calling it twice is calling
        it once. */
    method ClearCart()
      modifies this
      ensures cart == []
    {
      cart := [];
    }
  }
}
