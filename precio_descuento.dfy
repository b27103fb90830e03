/** The sale price of a product from its offer list
    (src/utils/precioDescuento.ts). The first offer whose `estado` is true
    is applied as written: no date window is consulted and the result is
    not clamped at zero. */
module PrecioDescuento {
  import opened Wrappers
  import opened Types
  import Seqs

  /** `o => o.estado`: only a present `true` is truthy. */
  predicate Activa(o: Oferta)
  {
    o.estado == Some(true)
  }

  /** `valorDescuento ?? 0` */
  function Valor(o: Oferta): real
  {
    o.valorDescuento.GetOr(0.0)
  }

  /** `ofertas.find(o => o.estado)` */
  function OfertaActiva(ofertas: seq<Oferta>): (r: Option<Oferta>)
    ensures r.Some? ==> r.value in ofertas && Activa(r.value)
    ensures r.None? <==> forall i :: 0 <= i < |ofertas| ==> !Activa(ofertas[i])
  {
    Seqs.Find(ofertas, Activa)
  }

  /** The reduction an offer applies to `precio`. */
  function Aplicar(precio: real, o: Oferta): real
  {
    if o.tipoDescuento == "MONTO" then precio - Valor(o)
    else if o.tipoDescuento == "PORCENTAJE" then precio - precio * (Valor(o) / 100.0)
    else precio
  }

  /** calcularPrecioConDescuento */
  function PrecioConDescuento(p: Producto): (r: real)
    ensures p.ofertas.None? || p.ofertas.value == [] ==> r == p.precio
    ensures p.ofertas.Some? && OfertaActiva(p.ofertas.value).None? ==> r == p.precio
  {
    if p.ofertas.None? || |p.ofertas.value| == 0 then p.precio
    else match OfertaActiva(p.ofertas.value)
      case None => p.precio
      case Some(o) => Aplicar(p.precio, o)
  }

  /** With offers `pre + [o] + post` where nothing in `pre` is active and `o`
      is, the price is exactly what `o` alone gives: later offers are
      ignored. */
  lemma PrimeraActivaDecide(p: Producto, pre: seq<Oferta>, o: Oferta, post: seq<Oferta>)
    requires p.ofertas == Some(pre + [o] + post)
    requires forall i :: 0 <= i < |pre| ==> !Activa(pre[i])
    requires Activa(o)
    ensures PrecioConDescuento(p) == Aplicar(p.precio, o)
    ensures PrecioConDescuento(p) == PrecioConDescuento(p.(ofertas := Some([o])))
  {
    Seqs.FindIndexPrefix(pre, o, post, Activa);
    assert (pre + [o] + post)[|pre|] == o;
  }

  /** Two offers that differ at most in their dates. */
  predicate MismaSalvoFechas(a: Oferta, b: Oferta)
  {
    a.(fechaInicio := None, fechaFin := None) == b.(fechaInicio := None, fechaFin := None)
  }

  /** Offer dates never influence the price. */
  lemma FechasIgnoradas(p: Producto, ofertas: seq<Oferta>)
    requires p.ofertas.Some? && |ofertas| == |p.ofertas.value|
    requires forall i :: 0 <= i < |ofertas| ==> MismaSalvoFechas(ofertas[i], p.ofertas.value[i])
    ensures PrecioConDescuento(p.(ofertas := Some(ofertas))) == PrecioConDescuento(p)
  {
    var os := p.ofertas.value;
    forall i | 0 <= i < |ofertas| ensures Activa(ofertas[i]) == Activa(os[i]) {
      assert ofertas[i].estado == ofertas[i].(fechaInicio := None, fechaFin := None).estado;
      assert os[i].estado == os[i].(fechaInicio := None, fechaFin := None).estado;
    }
    Seqs.FindIndexAgree(ofertas, Activa, os, Activa);
    var k := Seqs.FindIndex(os, Activa);
    if k.Some? {
      var a, b := ofertas[k.value], os[k.value];
      assert a.tipoDescuento == a.(fechaInicio := None, fechaFin := None).tipoDescuento;
      assert b.tipoDescuento == b.(fechaInicio := None, fechaFin := None).tipoDescuento;
      assert a.valorDescuento == a.(fechaInicio := None, fechaFin := None).valorDescuento;
      assert b.valorDescuento == b.(fechaInicio := None, fechaFin := None).valorDescuento;
    }
  }

  /** A fixed-amount offer subtracts its value; nothing stops the price from
      going below zero. */
  lemma MontoSinTope(p: Producto, o: Oferta)
    requires p.ofertas == Some([o]) && Activa(o) && o.tipoDescuento == "MONTO"
    ensures PrecioConDescuento(p) == p.precio - Valor(o)
    ensures Valor(o) > p.precio ==> PrecioConDescuento(p) < 0.0
  {
  }

  /** A percentage offer: 0% keeps the price, 100% makes it free, and any
      percentage in [0, 100] keeps a non-negative price in [0, precio]. */
  lemma PorcentajeAcotado(precio: real, o: Oferta)
    requires o.tipoDescuento == "PORCENTAJE"
    ensures Valor(o) == 0.0 ==> Aplicar(precio, o) == precio
    ensures Valor(o) == 100.0 ==> Aplicar(precio, o) == 0.0
    ensures precio >= 0.0 && 0.0 <= Valor(o) <= 100.0 ==> 0.0 <= Aplicar(precio, o) <= precio
  {
    var v := Valor(o);
    if precio >= 0.0 && 0.0 <= v <= 100.0 {
      var f := (100.0 - v) / 100.0;
      assert Aplicar(precio, o) == precio * f;
      assert 0.0 <= f <= 1.0;
      assert precio * f >= 0.0 * f;
      assert precio * f <= precio * 1.0;
    }
  }

  /** A missing `valorDescuento` or an unknown `tipoDescuento` leaves the
      price unchanged. */
  lemma SinEfecto(precio: real, o: Oferta)
    requires o.valorDescuento.None? || (o.tipoDescuento != "MONTO" && o.tipoDescuento != "PORCENTAJE")
    ensures Aplicar(precio, o) == precio
  {
  }
}
