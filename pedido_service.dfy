/** The in-memory order table used by the admin orders tab
    (src/services/pedidoService.ts). The promise delays are left out, and
    the clock that stamps the seed rows' `fecha` is a parameter. */
module PedidoService {
  import opened Wrappers
  import Seqs
  import MockIds

  datatype Pedido = Pedido(id: int, cliente: string, total: real, estado: string, fecha: string)

  /** `Partial<Pedido>` */
  datatype Patch = Patch(
    id: Option<int>, cliente: Option<string>, total: Option<real>,
    estado: Option<string>, fecha: Option<string>)

  /** `{ ...p, ...patch }` */
  function Merge(p: Pedido, patch: Patch): Pedido
  {
    Pedido(patch.id.GetOr(p.id), patch.cliente.GetOr(p.cliente), patch.total.GetOr(p.total),
           patch.estado.GetOr(p.estado), patch.fecha.GetOr(p.fecha))
  }

  /** The patch the orders tab sends: `{ estado }`. */
  function EstadoPatch(estado: string): Patch
  {
    Patch(None, None, None, Some(estado), None)
  }

  function Id(p: Pedido): int
  {
    p.id
  }

  function Removed(t: seq<Pedido>, id: int): seq<Pedido>
  {
    Seqs.Filter(t, (p: Pedido) => p.id != id)
  }

  function Updated(t: seq<Pedido>, id: int, patch: Patch): seq<Pedido>
  {
    Seqs.MapWhere(t, (p: Pedido) => p.id == id, (p: Pedido) => Merge(p, patch))
  }

  function NewPedido(t: seq<Pedido>, pedido: Pedido): Pedido
  {
    pedido.(id := MockIds.NextId(Seqs.Map(t, Id)))
  }

  lemma UpdatedAt(t: seq<Pedido>, id: int, patch: Patch, i: int)
    requires 0 <= i < |t|
    ensures |Updated(t, id, patch)| == |t|
    ensures Updated(t, id, patch)[i] == if t[i].id == id then Merge(t[i], patch) else t[i]
  {
    Seqs.MapWhereAt(t, (p: Pedido) => p.id == id, (p: Pedido) => Merge(p, patch), i);
  }

  /** Updating with `{ estado }` changes only the `estado` of the matching
      orders; the length and every other order are unchanged. */
  lemma UpdateEstado(t: seq<Pedido>, id: int, estado: string)
    ensures |Updated(t, id, EstadoPatch(estado))| == |t|
    ensures forall i :: 0 <= i < |t| ==>
      Updated(t, id, EstadoPatch(estado))[i] == if t[i].id == id then t[i].(estado := estado) else t[i]
  {
    forall i | 0 <= i < |t| ensures Updated(t, id, EstadoPatch(estado))[i]
              == if t[i].id == id then t[i].(estado := estado) else t[i] {
      UpdatedAt(t, id, EstadoPatch(estado), i);
    }
  }

  /** `update` resolves with the updated order when the patch keeps the id. */
  lemma UpdateResult(t: seq<Pedido>, id: int, patch: Patch)
    requires patch.id.None? || patch.id == Some(id)
    ensures Seqs.Find(Updated(t, id, patch), (p: Pedido) => p.id == id)
         == match Seqs.Find(t, (p: Pedido) => p.id == id)
            case None => None
            case Some(p) => Some(Merge(p, patch))
  {
    var u := Updated(t, id, patch);
    forall i | 0 <= i < |t| ensures (u[i].id == id) == (t[i].id == id)
      && (t[i].id == id ==> u[i] == Merge(t[i], patch)) {
      UpdatedAt(t, id, patch, i);
    }
    Seqs.FindIndexAgree(u, (p: Pedido) => p.id == id, t, (p: Pedido) => p.id == id);
  }

  /** `remove` deletes exactly the orders with that id and preserves unique
      ids ... */
  lemma RemovedSpec(t: seq<Pedido>, id: int)
    ensures forall p :: p in Removed(t, id) <==> p in t && p.id != id
    ensures Seqs.UniqueBy(t, Id) ==> Seqs.UniqueBy(Removed(t, id), Id)
  {
    if Seqs.UniqueBy(t, Id) {
      Seqs.FilterUnique(t, (p: Pedido) => p.id != id, Id);
    }
  }

  lemma CreatePreservesUnique(t: seq<Pedido>, pedido: Pedido)
    requires Seqs.UniqueBy(t, Id)
    ensures forall i :: 0 <= i < |t| ==> t[i].id < NewPedido(t, pedido).id
    ensures Seqs.UniqueBy(t + [NewPedido(t, pedido)], Id)
  {
  }

  /** ... and keeps the surviving orders in their original order. */
  lemma RemovedConcat(a: seq<Pedido>, b: seq<Pedido>, id: int)
    ensures Removed(a + b, id) == Removed(a, id) + Removed(b, id)
  {
    Seqs.FilterConcat(a, b, (p: Pedido) => p.id != id);
  }

  class Service {
    var pedidos: seq<Pedido>

    /** The two seed orders, each stamped with its own reading of the
        clock (`now1`, then `now2`). */
    constructor (now1: string, now2: string)
      ensures pedidos == [Pedido(1, "Juan Perez", 65.0, "Pendiente", now1),
                          Pedido(2, "Maria Lopez", 40.0, "Enviado", now2)]
    {
      pedidos := [Pedido(1, "Juan Perez", 65.0, "Pendiente", now1),
                  Pedido(2, "Maria Lopez", 40.0, "Enviado", now2)];
    }

    method GetAll() returns (r: seq<Pedido>)
      ensures r == pedidos
    {
      r := pedidos;
    }

    method Remove(id: int)
      modifies this
      ensures pedidos == Removed(old(pedidos), id)
    {
      pedidos := Seqs.Filter(pedidos, (p: Pedido) => p.id != id);
    }

    method Create(pedido: Pedido) returns (nuevo: Pedido)
      modifies this
      ensures nuevo == NewPedido(old(pedidos), pedido)
      ensures pedidos == old(pedidos) + [nuevo]
    {
      nuevo := pedido.(id := MockIds.NextId(Seqs.Map(pedidos, Id)));
      pedidos := pedidos + [nuevo];
    }

    method Update(id: int, patch: Patch) returns (updated: Option<Pedido>)
      modifies this
      ensures pedidos == Updated(old(pedidos), id, patch)
      ensures updated == Seqs.Find(pedidos, (p: Pedido) => p.id == id)
    {
      pedidos := Seqs.MapWhere(pedidos, (p: Pedido) => p.id == id, (p: Pedido) => Merge(p, patch));
      updated := Seqs.Find(pedidos, (p: Pedido) => p.id == id);
    }
  }
}
