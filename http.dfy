/** What the pages see of an awaited `fetch`, and the donation records and
    list bodies that several of them read. */
module Http {
  import opened Js

  /** A 2xx response with its parsed body, or a failure: a non-2xx status whose
      body may carry `msg`, or a thrown error with its message. */
  datatype Outcome<T> = Ok(body: T) | Failed(msg: Option<string>)

  /** `err.message || fallback`, the text a failure is reported with. */
  function FailureText<T>(o: Outcome<T>, fallback: string): string
    requires o.Failed?
  {
    Or(o.msg, fallback)
  }

  datatype Donor = Donor(nombre: Option<string>)

  /** A donation as the list endpoints return it (absent properties are `None`). */
  datatype Donation = Donation(
    id: Option<string>,
    tipo: Option<string>,
    tipoDonacion: Option<string>,
    categoria: Option<string>,
    descripcion: Option<string>,
    comentarios: Option<string>,
    direccionEntrega: Option<string>,
    telefonoContacto: Option<string>,
    imagen: Option<string>,
    nombre: Option<string>,
    donante: Option<Donor>)

  /** A list endpoint's parsed body: a bare array, an object that may carry
      the arrays `items` and `donaciones`, or nothing usable (`null`). */
  datatype ListBody =
    | ArrayBody(elems: seq<Donation>)
    | ObjectBody(items: Option<seq<Donation>>, donaciones: Option<seq<Donation>>)
    | NullBody

  /** `data?.items || data?.donaciones || []`. An array is truthy even when
      empty, so a present `items` wins over `donaciones` whatever it holds. */
  function ItemsOrDonaciones(b: ListBody): seq<Donation> {
    match b
    case ObjectBody(Some(items), _) => items
    case ObjectBody(None, Some(donaciones)) => donaciones
    case _ => []
  }
}
