/** The pure parts of the comprobante serializers, in both variants of the code
    (backend/comprobantes/serializers.py and the older
    ProyectoFacturacion/comprobantes/serializers.py): the NCF text, the series
    validation with its field lock, and the pool of comprobantes a new series
    generates. */
module ComprobantesSerializers {
  import opened Base
  import opened Colecciones
  import opened Texto
  import opened ComprobantesModelos

  /** Total width of the NCF text when a series generates its pool. */
  const AnchoSerie: int := 10
  /** Total width used by ComprobanteSerializer._generar_numero_completo. */
  const AnchoComprobante: int := 11
  /** Total width used by the older _generar_numero_completo. */
  const AnchoLegacy: int := 19

  /** The full NCF: the type code followed by the number, zero-padded (after a
      minus sign, as `zfill` does) so that the whole text reaches `ancho`
      characters. */
  function FormatNcf(codigo: string, numero: int, ancho: int): (r: string)
    ensures |r| >= |codigo| && |r| >= ancho && r[..|codigo|] == codigo
  {
    codigo + ZFill(IntToString(numero), ancho - |codigo|)
  }

  /** Padding never truncates, the code is a prefix, and the rest of the text
      reads back as the number: no two numbers of one type share an NCF. */
  lemma FormatNcfRoundTrip(codigo: string, numero: int, ancho: int)
    ensures var r := FormatNcf(codigo, numero, ancho);
      && |r| == (if |codigo| + |IntToString(numero)| >= ancho then |codigo| + |IntToString(numero)| else ancho)
      && r[..|codigo|] == codigo
      && ParseInt(r[|codigo|..]) == Some(numero)
  {
    var r := FormatNcf(codigo, numero, ancho);
    ZFillRoundTrip(numero, ancho - |codigo|);
    assert r[|codigo|..] == ZFill(IntToString(numero), ancho - |codigo|);
  }

  /** Two comprobantes of one type with the same NCF text have the same number. */
  lemma FormatNcfInyectivo(codigo: string, n: int, m: int, ancho: int)
    requires FormatNcf(codigo, n, ancho) == FormatNcf(codigo, m, ancho)
    ensures n == m
  {
    FormatNcfRoundTrip(codigo, n, ancho);
    FormatNcfRoundTrip(codigo, m, ancho);
  }

  /** The keys of a series write request with their values; an absent key is
      None. `anulado` and the company stamp are read-only and cannot appear. */
  datatype SerieDatos = SerieDatos(
    tipo: Option<nat>,
    desde: Option<Option<int>>,
    hasta: Option<Option<int>>,
    numeroActual: Option<int>,
    fechaVencimiento: Option<Fecha>)

  /** A creation request: type, numero_actual and fecha_vencimiento are required,
      the bounds are nullable. */
  datatype SerieNueva = SerieNueva(
    tipo: nat,
    desde: Option<int>,
    hasta: Option<int>,
    numeroActual: int,
    fechaVencimiento: Fecha)

  /** `data.get(clave)`: None when the key is absent or null. */
  function Dato(o: Option<Option<int>>): Option<int> {
    if o.Some? then o.value else None
  }

  function DatosDeAlta(d: SerieNueva): SerieDatos {
    SerieDatos(Some(d.tipo), Some(d.desde), Some(d.hasta), Some(d.numeroActual), Some(d.fechaVencimiento))
  }

  /** The series a creation request stores: `anulado` starts false. */
  function SerieDe(d: SerieNueva): (s: Serie)
    ensures !s.anulado
    ensures s.tipo == d.tipo && s.desde == d.desde && s.hasta == d.hasta
    ensures s.numeroActual == d.numeroActual && s.fechaVencimiento == d.fechaVencimiento
  {
    Serie(d.tipo, d.desde, d.hasta, d.numeroActual, d.fechaVencimiento, false)
  }

  /** ModelSerializer.update: every key present in the request replaces the field. */
  function Aplicar(s: Serie, d: SerieDatos): (t: Serie)
    ensures t.anulado == s.anulado
    ensures t.tipo == d.tipo.GetOr(s.tipo) && t.numeroActual == d.numeroActual.GetOr(s.numeroActual)
    ensures t.desde == d.desde.GetOr(s.desde) && t.hasta == d.hasta.GetOr(s.hasta)
    ensures t.fechaVencimiento == d.fechaVencimiento.GetOr(s.fechaVencimiento)
  {
    Serie(d.tipo.GetOr(s.tipo), d.desde.GetOr(s.desde), d.hasta.GetOr(s.hasta),
          d.numeroActual.GetOr(s.numeroActual), d.fechaVencimiento.GetOr(s.fechaVencimiento), s.anulado)
  }

  /** The range check both variants of `validate` make: only when both bounds are
      given and non-zero must `desde` be below `hasta`. */
  predicate RangoAceptable(desde: Option<int>, hasta: Option<int>) {
    !(Truthy(desde) && Truthy(hasta) && desde.value >= hasta.value)
  }

  /** The query of the field lock: some comprobante of the series' type has its
      number in [desde, hasta], a missing bound counting as 0. */
  predicate HayComprobantesEnRango(s: Serie, comps: map<nat, Comprobante>) {
    exists k :: k in comps && comps[k].tipo == s.tipo && OrZero(s.desde) <= comps[k].numero <= OrZero(s.hasta)
  }

  /** get_tiene_comprobantes_generados: false for a series never saved (no key). */
  predicate TieneComprobantesGenerados(id: Option<nat>, s: Serie, comps: map<nat, Comprobante>): (b: bool)
    ensures id.None? ==> !b
    ensures b ==> exists k :: k in comps && comps[k].tipo == s.tipo
  {
    id.Some? && HayComprobantesEnRango(s, comps)
  }

  /** Only fecha_vencimiento and numero_actual may be sent to a locked series. */
  predicate SoloCamposModificables(d: SerieDatos) {
    d.tipo.None? && d.desde.None? && d.hasta.None?
  }

  /** SerieComprobanteSerializer.validate (current variant). `instancia` is the
      stored series on an update, None on a creation. */
  function ValidarSerie(d: SerieDatos, instancia: Option<Serie>, comps: map<nat, Comprobante>): (r: Result<()>)
    ensures r == Err(RangoInvalido) <==> !RangoAceptable(Dato(d.desde), Dato(d.hasta))
    ensures r == Err(SerieConComprobantes) <==>
              RangoAceptable(Dato(d.desde), Dato(d.hasta)) && instancia.Some?
              && HayComprobantesEnRango(instancia.value, comps) && !SoloCamposModificables(d)
    ensures r.Ok? || r == Err(RangoInvalido) || r == Err(SerieConComprobantes)
  {
    if !RangoAceptable(Dato(d.desde), Dato(d.hasta)) then Err(RangoInvalido)
    else if instancia.Some? && HayComprobantesEnRango(instancia.value, comps) && !SoloCamposModificables(d) then
      Err(SerieConComprobantes)
    else Ok(())
  }

  /** The older validate: the range check and nothing else. */
  function ValidarSerieLegacy(d: SerieDatos): (r: Result<()>)
    ensures r.Ok? <==> RangoAceptable(Dato(d.desde), Dato(d.hasta))
    ensures r.Err? ==> r.error == RangoInvalido
  {
    if RangoAceptable(Dato(d.desde), Dato(d.hasta)) then Ok(()) else Err(RangoInvalido)
  }

  /** With numbers in its range, a stored series accepts exactly the requests
      that send only fecha_vencimiento and numero_actual (and a valid range). */
  lemma BloqueoDeCampos(d: SerieDatos, s: Serie, comps: map<nat, Comprobante>)
    requires HayComprobantesEnRango(s, comps)
    requires RangoAceptable(Dato(d.desde), Dato(d.hasta))
    ensures ValidarSerie(d, Some(s), comps).Ok? <==> SoloCamposModificables(d)
  {
  }

  /** The two variants agree on creations; on updates the older one accepts
      everything the current one accepts and more (it has no field lock). */
  lemma LegacySinBloqueo(d: SerieDatos, instancia: Option<Serie>, comps: map<nat, Comprobante>)
    ensures ValidarSerie(d, None, comps) == ValidarSerieLegacy(d)
    ensures ValidarSerie(d, instancia, comps).Ok? ==> ValidarSerieLegacy(d).Ok?
  {
  }

  /** The comprobante a series creates for `numero`. */
  function Generado(s: Serie, codigo: string, numero: int, hoy: Fecha, ancho: int): (c: Comprobante)
    ensures c.tipo == s.tipo && c.numero == numero && !c.anulado
    ensures c.cliente.None? && c.factura.None?
    ensures c.completo == Some(FormatNcf(codigo, numero, ancho))
  {
    Comprobante(s.tipo, numero, Some(FormatNcf(codigo, numero, ancho)), hoy, s.fechaVencimiento, false, None, None)
  }

  /** The comprobantes a generation loop creates for the numbers desde,
      desde + 1, ..., desde + cantidad - 1, stored under the consecutive keys
      base, base + 1, ...; `gen` builds the record for one number. */
  function Pool(base: nat, gen: int -> Comprobante, desde: int, cantidad: nat): (p: map<nat, Comprobante>)
    ensures forall k :: k in p <==> base <= k < base + cantidad
    decreases cantidad
  {
    if cantidad == 0 then map[]
    else Pool(base, gen, desde, cantidad - 1)[base + cantidad - 1 := gen(desde + cantidad - 1)]
  }

  /** The pool holds exactly `cantidad` comprobantes. */
  lemma {:induction false} PoolTamano(base: nat, gen: int -> Comprobante, desde: int, cantidad: nat)
    ensures |Pool(base, gen, desde, cantidad)| == cantidad
    decreases cantidad
  {
    if cantidad > 0 {
      PoolTamano(base, gen, desde, cantidad - 1);
      assert base + cantidad - 1 !in Pool(base, gen, desde, cantidad - 1);
    }
  }

  /** The record under key k is the one built for number desde + (k - base): the
      numbers follow the keys one to one. */
  lemma {:induction false} PoolElementos(base: nat, gen: int -> Comprobante, desde: int, cantidad: nat)
    ensures forall k :: k in Pool(base, gen, desde, cantidad) ==>
              Pool(base, gen, desde, cantidad)[k] == gen(desde + (k - base))
    decreases cantidad
  {
    if cantidad > 0 {
      var previo := Pool(base, gen, desde, cantidad - 1);
      PoolElementos(base, gen, desde, cantidad - 1);
      forall k | k in Pool(base, gen, desde, cantidad)
        ensures Pool(base, gen, desde, cantidad)[k] == gen(desde + (k - base))
      {
        if k != base + cantidad - 1 {
          assert k in previo;
        }
      }
    }
  }

  /** The record builder of a series: its type and expiry date, the creation
      date, no client, no invoice, not voided, and the NCF of the number. */
  function Generador(s: Serie, codigo: string, hoy: Fecha, ancho: int): (gen: int -> Comprobante)
    ensures forall n :: gen(n) == Generado(s, codigo, n, hoy, ancho)
  {
    n => Generado(s, codigo, n, hoy, ancho)
  }

  /** The first number of [desde, hasta] whose per-number serializer rejects it
      (the older create raises there and stops). */
  function PrimerFallido(desde: int, hasta: int, fallidos: set<int>): (r: Option<int>)
    ensures r.Some? ==> desde <= r.value <= hasta && r.value in fallidos
    ensures r.Some? ==> forall m :: desde <= m < r.value ==> m !in fallidos
    ensures r.None? ==> forall m :: desde <= m <= hasta ==> m !in fallidos
    decreases hasta - desde
  {
    if desde > hasta then None
    else if desde in fallidos then Some(desde)
    else PrimerFallido(desde + 1, hasta, fallidos)
  }
}
