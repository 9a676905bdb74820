/** Small shared vocabulary: optional values, results with the business errors the
    serializers and views raise, and Python's truthiness of a nullable integer. */
module Base {

  datatype Option<+T> = None | Some(value: T) {
    function GetOr(default: T): T {
      match this
      case Some(v) => v
      case None => default
    }
  }

  /** The error paths of the modelled views and serializers. Each one aborts the
      surrounding atomic block, so the store is left as it was. */
  datatype Error =
    | RangoInvalido                 // 'desde' debe ser menor que 'hasta'
    | SerieConComprobantes          // field lock once numbers exist in the range
    | NoEncontrado                  // get_object() on a missing primary key (404)
    | ReferenciaInvalida            // a foreign key naming a row that does not exist
    | ParametroRequerido            // query parameter 'tipo_comprobante' missing or empty
    | SerieYaAnulada                // 'Esta serie ya está anulada'
    | SinComprobantesDisponibles    // no unassigned comprobante of the invoice's type
    | RangoIncompleto               // range(None, ...) raises inside the atomic block
    | ComprobanteInvalido(numero: int)  // legacy per-number serializer rejected 'numero'

  datatype Result<+T> = Ok(value: T) | Err(error: Error)

  /** Dates are stored and echoed, never compared: an opaque ISO text. */
  type Fecha = string

  /** Python truthiness of a nullable integer field: None and 0 are false. */
  predicate Truthy(o: Option<int>) {
    o.Some? && o.value != 0
  }

  /** The idiom `x if x else 0` used to build range filters. */
  function OrZero(o: Option<int>): int {
    if Truthy(o) then o.value else 0
  }
}
