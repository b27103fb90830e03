/** The records of the catalogue as the storefront receives them from the
    backend (src/types/producto.ts, src/types/usuario.ts). Optional and
    nullable properties are `Option`s; fields no modelled rule reads are
    left out. */
module Types {
  import opened Wrappers

  /** An offer attached to a product. `tipoDescuento` is "MONTO",
      "PORCENTAJE" or, at run time, any other string. */
  datatype Oferta = Oferta(
    idOferta: int,
    valorDescuento: Option<real>,
    tipoDescuento: string,
    fechaInicio: Option<string>,
    fechaFin: Option<string>,
    estado: Option<bool>)

  /** A product, also used as a cart line: a line is the product spread
      with a `quantity` property. */
  datatype Producto = Producto(
    id: int,
    nombre: string,
    precio: real,
    precioFinal: Option<real>,
    quantity: Option<int>,
    ofertas: Option<seq<Oferta>>)

  datatype Usuario = Usuario(id: int, nombre: string, email: string, rol: string)
}
