/** The product-list hook (src/hooks/useproductos.ts). Each HTTP call's
    outcome is a parameter; the hook's state changes only as the code
    changes it around that outcome, and the list changes only after a
    request succeeds. */
module UseProductos {
  import opened Wrappers
  import opened Types
  import Seqs

  /** The body of a listing response: a page object with `content` and
      `last`, or a bare array (for which `data.last` is undefined). */
  datatype Respuesta = Paginada(content: seq<Producto>, last: bool) | Lista(items: seq<Producto>)

  /** `data.content || data` */
  function Nuevos(d: Respuesta): seq<Producto>
  {
    match d
    case Paginada(content, _) => content
    case Lista(items) => items
  }

  /** `!data.last && nuevosProductos.length > 0` */
  function HayMas(d: Respuesta): bool
  {
    !(d.Paginada? && d.last) && |Nuevos(d)| > 0
  }

  /** `newPage === 0 ? nuevos : [...prev, ...nuevos]` */
  function Reconciliar(prev: seq<Producto>, newPage: int, nuevos: seq<Producto>): seq<Producto>
  {
    if newPage == 0 then nuevos else prev + nuevos
  }

  /** `prev.map(p => p.id === id ? data : p)` */
  function Reemplazado(prev: seq<Producto>, id: int, data: Producto): seq<Producto>
  {
    Seqs.MapWhere(prev, (p: Producto) => p.id == id, (p: Producto) => data)
  }

  /** `prev.filter(p => p.id !== id)` */
  function SinId(prev: seq<Producto>, id: int): seq<Producto>
  {
    Seqs.Filter(prev, (p: Producto) => p.id != id)
  }

  const FetchError := "No se pudieron cargar los productos."
  const FetchAdminError := "No se pudieron cargar los productos (admin)."

  /** Loading pages 0, 1, ..., k in order leaves their concatenation. */
  lemma PaginasEnOrden(prev: seq<Producto>, p0: seq<Producto>, rest: seq<seq<Producto>>)
    ensures Acumular(Reconciliar(prev, 0, p0), rest) == p0 + Concat(rest)
  {
    AcumularSpec(p0, rest);
  }

  function Concat(pages: seq<seq<Producto>>): seq<Producto>
  {
    if pages == [] then [] else pages[0] + Concat(pages[1..])
  }

  /** The list after fetching the given later pages (page > 0) in order. */
  function Acumular(list: seq<Producto>, pages: seq<seq<Producto>>): seq<Producto>
    decreases |pages|
  {
    if pages == [] then list else Acumular(Reconciliar(list, 1, pages[0]), pages[1..])
  }

  lemma {:induction false} AcumularSpec(list: seq<Producto>, pages: seq<seq<Producto>>)
    ensures Acumular(list, pages) == list + Concat(pages)
    decreases |pages|
  {
    if pages != [] {
      AcumularSpec(list + pages[0], pages[1..]);
    }
  }

  /** `updateProducto(id)` replaces every entry with that id by the server's
      record and leaves the others where they were. */
  lemma ReemplazadoAt(prev: seq<Producto>, id: int, data: Producto, i: int)
    requires 0 <= i < |prev|
    ensures |Reemplazado(prev, id, data)| == |prev|
    ensures Reemplazado(prev, id, data)[i] == if prev[i].id == id then data else prev[i]
  {
    Seqs.MapWhereAt(prev, (p: Producto) => p.id == id, (p: Producto) => data, i);
  }

  /** `removeProducto(id)` keeps exactly the entries with another id, in
      order. */
  lemma SinIdSpec(a: seq<Producto>, b: seq<Producto>, id: int)
    ensures forall p :: p in SinId(a, id) <==> p in a && p.id != id
    ensures SinId(a + b, id) == SinId(a, id) + SinId(b, id)
  {
    Seqs.FilterConcat(a, b, (p: Producto) => p.id != id);
  }

  class ProductosState {
    var productos: seq<Producto>
    var loading: bool
    var error: Option<string>
    var page: int
    var hasMore: bool

    constructor ()
      ensures productos == [] && !loading && error == None && page == 0 && hasMore
    {
      productos, loading, error, page, hasMore := [], false, None, 0, true;
    }

    /** `fetchProductos(newPage)` once its request has settled with `res`. */
    method FetchProductos(newPage: int, res: Result<Respuesta>)
      modifies this
      ensures !loading
      ensures res.Ok? ==> && productos == Reconciliar(old(productos), newPage, Nuevos(res.value))
                          && hasMore == HayMas(res.value)
                          && page == newPage
                          && error == None
      ensures res.Err? ==> && productos == old(productos)
                           && hasMore == old(hasMore)
                           && page == old(page)
                           && error == Some(FetchError)
    {
      loading := true;
      error := None;
      match res {
        case Ok(data) =>
          var nuevosProductos := Nuevos(data);
          productos := if newPage == 0 then nuevosProductos else productos + nuevosProductos;
          hasMore := !(data.Paginada? && data.last) && |nuevosProductos| > 0;
          page := newPage;
        case Err(_) =>
          error := Some(FetchError);
      }
      loading := false;
    }

    method FetchProductosAdmin(res: Result<seq<Producto>>)
      modifies this
      ensures !loading && page == old(page) && hasMore == old(hasMore)
      ensures res.Ok? ==> productos == res.value && error == None
      ensures res.Err? ==> productos == old(productos) && error == Some(FetchAdminError)
    {
      loading := true;
      error := None;
      match res {
        case Ok(data) => productos := data;
        case Err(_) => error := Some(FetchAdminError);
      }
      loading := false;
    }

    /** `createProducto`: the server's record is appended; a rejected
        request propagates and leaves the list as it was. */
    method CreateProducto(res: Result<Producto>) returns (r: Result<Producto>)
      modifies this
      ensures r == res
      ensures productos == if res.Ok? then old(productos) + [res.value] else old(productos)
      ensures loading == old(loading) && error == old(error) && page == old(page) && hasMore == old(hasMore)
    {
      if res.Ok? {
        productos := productos + [res.value];
      }
      r := res;
    }

    method UpdateProducto(id: int, res: Result<Producto>) returns (r: Result<Producto>)
      modifies this
      ensures r == res
      ensures productos == if res.Ok? then Reemplazado(old(productos), id, res.value) else old(productos)
      ensures loading == old(loading) && error == old(error) && page == old(page) && hasMore == old(hasMore)
    {
      if res.Ok? {
        var data := res.value;
        productos := Seqs.MapWhere(productos, (p: Producto) => p.id == id, (p: Producto) => data);
      }
      r := res;
    }

    method RemoveProducto(id: int, res: Outcome) returns (r: Outcome)
      modifies this
      ensures r == res
      ensures productos == if res.Pass? then SinId(old(productos), id) else old(productos)
      ensures loading == old(loading) && error == old(error) && page == old(page) && hasMore == old(hasMore)
    {
      if res.Pass? {
        productos := Seqs.Filter(productos, (p: Producto) => p.id != id);
      }
      r := res;
    }
  }
}
