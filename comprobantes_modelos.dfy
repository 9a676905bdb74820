/** The records of the fiscal-number bookkeeping (backend/comprobantes/models.py):
    a series declares a range `desde..hasta` of numbers of one document type with
    a cursor `numero_actual`; each number of the range is a `Comprobante` (an NCF)
    that an invoice may take. The three predicates of the series classify how
    close it is to running out. */
module ComprobantesModelos {
  import opened Base

  /** SerieComprobante. `tipo` is the TipoComprobante key; `desde`/`hasta` are
      nullable; `anulado` defaults to false. */
  datatype Serie = Serie(
    tipo: nat,
    desde: Option<int>,
    hasta: Option<int>,
    numeroActual: int,
    fechaVencimiento: Fecha,
    anulado: bool)

  /** Comprobante: one fiscal number. `cliente` and `factura` stay empty until
      an invoice takes it. */
  datatype Comprobante = Comprobante(
    tipo: nat,
    numero: int,
    completo: Option<string>,
    fechaEmision: Fecha,
    fechaVencimiento: Fecha,
    anulado: bool,
    cliente: Option<nat>,
    factura: Option<nat>)

  /** The default `limite` of esta_por_agotarse and of the alert view. */
  const LimitePorDefecto: int := 5

  /** comprobantes_restantes: how far the cursor is from `hasta`, never negative,
      and 0 whenever `desde` or `hasta` is unset or 0. It is `hasta - numero_actual`,
      not `+ 1`: the number under the cursor is counted as used. */
  function Restantes(s: Serie): (r: nat)
    ensures !Truthy(s.desde) || !Truthy(s.hasta) ==> r == 0
    ensures r > 0 ==> s.hasta.Some? && s.numeroActual + r == s.hasta.value
    ensures Truthy(s.desde) && Truthy(s.hasta) && s.numeroActual < s.hasta.value ==> r > 0
  {
    if !Truthy(s.desde) || !Truthy(s.hasta) then 0
    else if s.hasta.value - s.numeroActual > 0 then s.hasta.value - s.numeroActual
    else 0
  }

  /** esta_por_agotarse(limite): some numbers remain, but no more than `limite`. */
  predicate PorAgotarse(s: Serie, limite: int): (b: bool)
    ensures b <==> Truthy(s.desde) && Truthy(s.hasta) && s.hasta.value - limite <= s.numeroActual < s.hasta.value
  {
    Restantes(s) <= limite && Restantes(s) > 0
  }

  /** esta_agotado: no number remains. */
  predicate Agotado(s: Serie): (b: bool)
    ensures b <==> !Truthy(s.desde) || !Truthy(s.hasta) || s.numeroActual >= s.hasta.value
  {
    Restantes(s) == 0
  }

  /** Advancing the cursor never increases the remaining count. */
  lemma RestantesMonotono(s: Serie, n: int)
    requires s.numeroActual <= n
    ensures Restantes(s.(numeroActual := n)) <= Restantes(s)
  {
  }

  /** A series is never both exhausted and about to run out, whatever the limit. */
  lemma AgotadoExcluyePorAgotarse(s: Serie, limite: int)
    ensures !(Agotado(s) && PorAgotarse(s, limite))
  {
  }

  /** A comprobante of type `tipo` that no client and no invoice holds. The
      source's availability filter does not look at `anulado`. */
  predicate Disponible(c: Comprobante, tipo: nat): (b: bool)
    ensures b ==> c.tipo == tipo
    ensures c.factura.Some? || c.cliente.Some? ==> !b
  {
    c.tipo == tipo && c.cliente.None? && c.factura.None?
  }
}
