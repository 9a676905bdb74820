/** Invoices and quotes (backend/facturas/models.py) and the numbering rules the
    invoice and quote serializers apply to them
    (ProyectoFacturacion/facturas/serializers.py). */
module FacturasModelos {
  import opened Base
  import opened Colecciones
  import opened ComprobantesModelos

  /** EstadoFactura: the five states an invoice can be in. */
  datatype EstadoFactura = Borrador | Pendiente | Activa | Pagada | Anulada {
    /** The stored text of the state. */
    function Valor(): string {
      match this
      case Borrador => "Borrador"
      case Pendiente => "Pendiente"
      case Activa => "Activa"
      case Pagada => "Pagada"
      case Anulada => "Anulada"
    }
  }

  /** The state a new invoice takes when the request names none. */
  const EstadoPorDefecto: EstadoFactura := Pendiente

  /** The choice a stored text stands for; None for a text outside the choices. */
  function EstadoDesde(v: string): (e: Option<EstadoFactura>)
    ensures e.Some? ==> e.value.Valor() == v
  {
    if v == "Borrador" then Some(Borrador)
    else if v == "Pendiente" then Some(Pendiente)
    else if v == "Activa" then Some(Activa)
    else if v == "Pagada" then Some(Pagada)
    else if v == "Anulada" then Some(Anulada)
    else None
  }

  /** Every state is stored as a distinct text that reads back as itself. */
  lemma EstadoRoundTrip(e: EstadoFactura, f: EstadoFactura)
    ensures EstadoDesde(e.Valor()) == Some(e)
    ensures e.Valor() == f.Valor() ==> e == f
  {
  }

  /** Factura, without its money and detail lines. `numero` is nullable and
      unique; `ncf` is the key of the assigned Comprobante. */
  datatype Factura = Factura(
    numero: Option<int>,
    tipo: nat,
    ncf: Option<nat>,
    fechaEmision: Fecha,
    fechaVencimiento: Fecha,
    anulado: bool,
    estado: EstadoFactura,
    cliente: nat)

  /** Cotizacion, without its money and detail lines. */
  datatype Cotizacion = Cotizacion(
    numero: int,
    fechaEmision: Fecha,
    fechaVencimiento: Fecha,
    anulado: bool,
    cliente: nat)

  /** The unique constraint on `numero_factura`; nulls never clash. */
  ghost predicate NumerosUnicos(fs: map<nat, Factura>) {
    forall i, j :: i in fs && j in fs && i != j && fs[i].numero.Some? ==> fs[i].numero != fs[j].numero
  }

  /** The unique constraint on `numero_cotizacion`. */
  ghost predicate CotizacionesUnicas(cs: map<nat, Cotizacion>) {
    forall i, j :: i in cs && j in cs && i != j ==> cs[i].numero != cs[j].numero
  }

  /** The non-null invoice numbers, by invoice key. */
  function Numeros(fs: map<nat, Factura>): (v: map<nat, int>)
    ensures forall k :: k in v <==> k in fs && fs[k].numero.Some?
    ensures forall k :: k in v ==> v[k] == fs[k].numero.value
  {
    map k | k in fs && fs[k].numero.Some? :: fs[k].numero.value
  }

  /** The number an activated invoice receives: the row first in descending
      `numero_factura` order (the largest number, nulls sorting last) plus one,
      or 1 when there is no such row or its number is 0 (falsy). */
  ghost function SiguienteNumero(fs: map<nat, Factura>): (n: int)
    ensures forall k :: k in fs && fs[k].numero.Some? ==> fs[k].numero.value < n
    ensures (forall k :: k in fs ==> fs[k].numero.None?) ==> n == 1
    ensures n == 1 || exists k :: k in fs && fs[k].numero == Some(n - 1)
  {
    var v := Numeros(fs);
    if v.Keys == {} then 1
    else
      var m := MaxValor(v);
      if m != 0 then m + 1 else 1
  }

  /** Every stored invoice number is at least 1. The serializer declares
      `numero_factura` read-only, so numbers only come from SiguienteNumero. */
  ghost predicate NumerosPositivos(fs: map<nat, Factura>) {
    forall k :: k in fs && fs[k].numero.Some? ==> fs[k].numero.value >= 1
  }

  /** On such tables the next number is at least 1, so it is truthy. */
  lemma SiguientePositivo(fs: map<nat, Factura>)
    requires NumerosPositivos(fs)
    ensures SiguienteNumero(fs) >= 1
  {
  }

  /** Giving one invoice the next number keeps numbers unique, whatever number
      that invoice had before. */
  lemma NumeroNuevoUnico(fs: map<nat, Factura>, id: nat, f: Factura)
    requires NumerosUnicos(fs)
    requires f.numero == Some(SiguienteNumero(fs))
    ensures NumerosUnicos(fs[id := f])
  {
    var n := SiguienteNumero(fs);
    var g := fs[id := f];
    forall i, j | i in g && j in g && i != j && g[i].numero.Some?
      ensures g[i].numero != g[j].numero
    {
      if i == id {
        assert j in fs;
      } else if j == id {
        assert i in fs && fs[i].numero.value < n;
      } else {
        assert fs[i] == g[i] && fs[j] == g[j];
      }
    }
  }

  /** A write that keeps an invoice's number, or clears it, keeps numbers unique. */
  lemma NumeroIgualUnico(fs: map<nat, Factura>, id: nat, f: Factura)
    requires NumerosUnicos(fs)
    requires f.numero.None? || (id in fs && f.numero == fs[id].numero)
    ensures NumerosUnicos(fs[id := f])
  {
    var g := fs[id := f];
    forall i, j | i in g && j in g && i != j && g[i].numero.Some?
      ensures g[i].numero != g[j].numero
    {
      if i != id && j != id {
        assert fs[i] == g[i] && fs[j] == g[j];
      }
    }
  }

  /** The number a new quote receives: the largest existing one plus one, or 1
      when there are no quotes. */
  ghost function SiguienteCotizacion(cs: map<nat, Cotizacion>): (n: int)
    ensures forall k :: k in cs ==> cs[k].numero < n
    ensures cs == map[] ==> n == 1
    ensures cs != map[] ==> exists k :: k in cs && cs[k].numero == n - 1
  {
    if cs.Keys == {} then
      assert cs == map[];
      1
    else
      var v := map k | k in cs :: cs[k].numero;
      assert v.Keys == cs.Keys;
      MaxValor(v) + 1
  }

  /** Factura.clean: an Activa invoice without an NCF is rejected when no
      comprobante of its type is free (no client, no invoice). */
  function Clean(f: Factura, comps: map<nat, Comprobante>): (r: Result<()>)
    ensures r.Err? <==> f.estado == Activa && f.ncf.None?
                        && forall k :: k in comps ==> !Disponible(comps[k], f.tipo)
    ensures r.Err? ==> r.error == SinComprobantesDisponibles
  {
    if f.estado == Activa && f.ncf.None? && !(exists k :: k in comps && Disponible(comps[k], f.tipo)) then
      Err(SinComprobantesDisponibles)
    else Ok(())
  }
}
