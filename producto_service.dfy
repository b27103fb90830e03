/** The in-memory product table used by the admin tabs
    (src/services/productoService.ts). The promise delays are left out:
    each call takes effect at once and resolves with the value shown. */
module ProductoService {
  import opened Wrappers
  import Seqs
  import MockIds

  /** A row of the mock table. */
  datatype Row = Row(id: int, nombre: string, precio: real, stock: int, ofertas: bool, descuento: real)

  /** `Partial<Producto>`: each property present or absent. */
  datatype Patch = Patch(
    id: Option<int>, nombre: Option<string>, precio: Option<real>,
    stock: Option<int>, ofertas: Option<bool>, descuento: Option<real>)

  /** `{ ...p, ...patch }`: the properties present in the patch win. */
  function Merge(p: Row, patch: Patch): Row
  {
    Row(patch.id.GetOr(p.id), patch.nombre.GetOr(p.nombre), patch.precio.GetOr(p.precio),
        patch.stock.GetOr(p.stock), patch.ofertas.GetOr(p.ofertas), patch.descuento.GetOr(p.descuento))
  }

  function Id(p: Row): int
  {
    p.id
  }

  function Ids(t: seq<Row>): seq<int>
  {
    Seqs.Map(t, Id)
  }

  function Removed(t: seq<Row>, id: int): seq<Row>
  {
    Seqs.Filter(t, (p: Row) => p.id != id)
  }

  function Updated(t: seq<Row>, id: int, patch: Patch): seq<Row>
  {
    Seqs.MapWhere(t, (p: Row) => p.id == id, (p: Row) => Merge(p, patch))
  }

  /** `{ ...producto, id: next }` */
  function NewRow(t: seq<Row>, producto: Row): Row
  {
    producto.(id := MockIds.NextId(Ids(t)))
  }

  /** A patch overwrites exactly the properties it carries; an empty patch
      changes nothing. */
  lemma MergeSpec(p: Row, patch: Patch)
    ensures patch.id.None? ==> Merge(p, patch).id == p.id
    ensures patch.id.Some? ==> Merge(p, patch).id == patch.id.value
    ensures patch.nombre.None? ==> Merge(p, patch).nombre == p.nombre
    ensures patch.nombre.Some? ==> Merge(p, patch).nombre == patch.nombre.value
    ensures patch.precio.None? ==> Merge(p, patch).precio == p.precio
    ensures patch.precio.Some? ==> Merge(p, patch).precio == patch.precio.value
    ensures patch.stock.None? ==> Merge(p, patch).stock == p.stock
    ensures patch.stock.Some? ==> Merge(p, patch).stock == patch.stock.value
    ensures patch.ofertas.None? ==> Merge(p, patch).ofertas == p.ofertas
    ensures patch.ofertas.Some? ==> Merge(p, patch).ofertas == patch.ofertas.value
    ensures patch.descuento.None? ==> Merge(p, patch).descuento == p.descuento
    ensures patch.descuento.Some? ==> Merge(p, patch).descuento == patch.descuento.value
    ensures Merge(p, Patch(None, None, None, None, None, None)) == p
  {
  }

  /** `update` rewrites only rows with that id, in place. */
  lemma UpdatedAt(t: seq<Row>, id: int, patch: Patch, i: int)
    requires 0 <= i < |t|
    ensures |Updated(t, id, patch)| == |t|
    ensures Updated(t, id, patch)[i] == if t[i].id == id then Merge(t[i], patch) else t[i]
  {
    Seqs.MapWhereAt(t, (p: Row) => p.id == id, (p: Row) => Merge(p, patch), i);
  }

  /** What `update` resolves with: when the patch leaves the id alone, the
      first row with that id, merged; `undefined` when there is none. */
  lemma UpdateResult(t: seq<Row>, id: int, patch: Patch)
    requires patch.id.None? || patch.id == Some(id)
    ensures Seqs.Find(Updated(t, id, patch), (p: Row) => p.id == id)
         == match Seqs.Find(t, (p: Row) => p.id == id)
            case None => None
            case Some(p) => Some(Merge(p, patch))
  {
    var u := Updated(t, id, patch);
    forall i | 0 <= i < |t| ensures (u[i].id == id) == (t[i].id == id)
      && (t[i].id == id ==> u[i] == Merge(t[i], patch)) {
      UpdatedAt(t, id, patch, i);
    }
    Seqs.FindIndexAgree(u, (p: Row) => p.id == id, t, (p: Row) => p.id == id);
  }

  /** The new row's id exceeds every existing id, so it is fresh. */
  lemma NewRowFresh(t: seq<Row>, producto: Row)
    ensures forall i :: 0 <= i < |t| ==> t[i].id < NewRow(t, producto).id
  {
  }

  lemma RemovePreservesUnique(t: seq<Row>, id: int)
    requires Seqs.UniqueBy(t, Id)
    ensures Seqs.UniqueBy(Removed(t, id), Id)
  {
    Seqs.FilterUnique(t, (p: Row) => p.id != id, Id);
  }

  lemma CreatePreservesUnique(t: seq<Row>, producto: Row)
    requires Seqs.UniqueBy(t, Id)
    ensures Seqs.UniqueBy(t + [NewRow(t, producto)], Id)
  {
  }

  lemma UpdatePreservesUnique(t: seq<Row>, id: int, patch: Patch)
    requires Seqs.UniqueBy(t, Id) && patch.id.None?
    ensures Seqs.UniqueBy(Updated(t, id, patch), Id)
  {
    var u := Updated(t, id, patch);
    forall i | 0 <= i < |t| ensures u[i].id == t[i].id {
      UpdatedAt(t, id, patch, i);
    }
  }

  /** `remove` deletes exactly the rows with that id and changes nothing
      for an absent id ... */
  lemma RemovedSpec(t: seq<Row>, id: int)
    ensures forall p :: p in Removed(t, id) <==> p in t && p.id != id
    ensures (forall i :: 0 <= i < |t| ==> t[i].id != id) ==> Removed(t, id) == t
  {
    if forall i :: 0 <= i < |t| ==> t[i].id != id {
      Seqs.FilterKeepsAll(t, (p: Row) => p.id != id);
    }
  }

  /** ... and keeps the surviving rows in their original order. */
  lemma RemovedConcat(a: seq<Row>, b: seq<Row>, id: int)
    ensures Removed(a + b, id) == Removed(a, id) + Removed(b, id)
  {
    Seqs.FilterConcat(a, b, (p: Row) => p.id != id);
  }

  class Service {
    var productos: seq<Row>

    /** The module-level table with its two seed rows. */
    constructor ()
      ensures productos == [Row(1, "Camiseta", 25.0, 10, true, 20.0),
                            Row(2, "Pantalón", 40.0, 5, false, 0.0)]
      ensures Seqs.UniqueBy(productos, Id)
    {
      productos := [Row(1, "Camiseta", 25.0, 10, true, 20.0),
                    Row(2, "Pantalón", 40.0, 5, false, 0.0)];
    }

    /** `getAll` resolves with a copy of the table. */
    method GetAll() returns (r: seq<Row>)
      ensures r == productos
    {
      r := productos;
    }

    method Remove(id: int)
      modifies this
      ensures productos == Removed(old(productos), id)
    {
      productos := Seqs.Filter(productos, (p: Row) => p.id != id);
    }

    method Create(producto: Row) returns (nuevo: Row)
      modifies this
      ensures nuevo == NewRow(old(productos), producto)
      ensures productos == old(productos) + [nuevo]
    {
      var next := MockIds.NextId(Seqs.Map(productos, Id));
      nuevo := producto.(id := next);
      productos := productos + [nuevo];
    }

    method Update(id: int, patch: Patch) returns (updated: Option<Row>)
      modifies this
      ensures productos == Updated(old(productos), id, patch)
      ensures updated == Seqs.Find(productos, (p: Row) => p.id == id)
    {
      productos := Seqs.MapWhere(productos, (p: Row) => p.id == id, (p: Row) => Merge(p, patch));
      updated := Seqs.Find(productos, (p: Row) => p.id == id);
    }
  }
}
