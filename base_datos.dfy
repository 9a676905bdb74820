/** The tables the core reads and writes, as one value, and each request of the
    core as a function from the tables before to its answer and the tables after.
    A request that fails answers `Err` and leaves the tables as they were: every
    modelled request runs inside `transaction.atomic` or fails before writing. */
module BaseDatos {
  import opened Base
  import opened Colecciones
  import opened ComprobantesModelos
  import opened ComprobantesSerializers
  import opened ComprobantesApi
  import opened FacturasModelos

  /** Rows by primary key. `tipos` maps a TipoComprobante key to its code text;
      the `sig*` counters are the next primary key of each table. */
  datatype Db = Db(
    tipos: map<nat, string>,
    clientes: set<nat>,
    series: map<nat, Serie>,
    comprobantes: map<nat, Comprobante>,
    facturas: map<nat, Factura>,
    cotizaciones: map<nat, Cotizacion>,
    sigSerie: nat,
    sigComprobante: nat,
    sigFactura: nat,
    sigCotizacion: nat)

  /** The NCF link is two-way: an invoice's NCF names it as its invoice, and a
      comprobante's invoice holds it as its NCF. */
  ghost predicate Enlaces(db: Db) {
    && (forall c :: c in db.comprobantes && db.comprobantes[c].factura.Some? ==>
          db.comprobantes[c].factura.value in db.facturas
          && db.facturas[db.comprobantes[c].factura.value].ncf == Some(c))
    && (forall f :: f in db.facturas && db.facturas[f].ncf.Some? ==>
          db.facturas[f].ncf.value in db.comprobantes
          && db.comprobantes[db.facturas[f].ncf.value].factura == Some(f))
  }

  /** Integrity of the tables: keys below the counters, foreign keys that resolve,
      two-way NCF links and the unique number constraints. */
  ghost predicate Integra(db: Db) {
    && (forall k :: k in db.series ==> k < db.sigSerie && db.series[k].tipo in db.tipos)
    && (forall k :: k in db.comprobantes ==> k < db.sigComprobante && db.comprobantes[k].tipo in db.tipos)
    && (forall k :: k in db.facturas ==>
          k < db.sigFactura && db.facturas[k].tipo in db.tipos && db.facturas[k].cliente in db.clientes)
    && (forall k :: k in db.cotizaciones ==> k < db.sigCotizacion && db.cotizaciones[k].cliente in db.clientes)
    && Enlaces(db)
    && NumerosUnicos(db.facturas)
    && CotizacionesUnicas(db.cotizaciones)
  }

  /** The empty tables over a given set of document types and clients. */
  function Vacia(tipos: map<nat, string>, clientes: set<nat>): (db: Db)
    ensures db.series == map[] && db.comprobantes == map[] && db.facturas == map[] && db.cotizaciones == map[]
  {
    Db(tipos, clientes, map[], map[], map[], map[], 0, 0, 0, 0)
  }

  lemma VaciaIntegra(tipos: map<nat, string>, clientes: set<nat>)
    ensures Integra(Vacia(tipos, clientes))
  {
  }

  // ---------------------------------------------------------------- series

  /** The writes of a series creation: the series under the next key, and the
      comprobantes `gen` builds for desde..hasta under the next comprobante keys. */
  ghost function Alta(db: Db, s: Serie, gen: int -> Comprobante, desde: int, hasta: int): Db {
    var n := Cantidad(desde, hasta);
    db.(series := db.series[db.sigSerie := s], sigSerie := db.sigSerie + 1,
        comprobantes := db.comprobantes + Pool(db.sigComprobante, gen, desde, n),
        sigComprobante := db.sigComprobante + n)
  }

  /** SerieComprobanteSerializer.create (current variant): validate, store the
      series and one comprobante per number of `range(desde, hasta + 1)`, with
      its NCF padded to width 10. `hoy` is the creation date. A null bound makes
      `range` raise inside the atomic block. */
  ghost function CrearSerie(db: Db, d: SerieNueva, hoy: Fecha): (r: (Result<nat>, Db))
    ensures r.0.Err? ==> r.1 == db
    ensures r.0.Ok? ==> r.0.value == db.sigSerie && r.1.series == db.series[db.sigSerie := SerieDe(d)]
    ensures r.1.facturas == db.facturas && r.1.cotizaciones == db.cotizaciones
    ensures db.comprobantes.Keys <= r.1.comprobantes.Keys
  {
    if d.tipo !in db.tipos then (Err(ReferenciaInvalida), db)
    else if ValidarSerie(DatosDeAlta(d), None, db.comprobantes).Err? then
      (Err(ValidarSerie(DatosDeAlta(d), None, db.comprobantes).error), db)
    else if d.desde.None? || d.hasta.None? then (Err(RangoIncompleto), db)
    else
      var gen := Generador(SerieDe(d), db.tipos[d.tipo], hoy, AnchoSerie);
      (Ok(db.sigSerie), Alta(db, SerieDe(d), gen, d.desde.value, d.hasta.value))
  }

  /** The older create: the same loop, each number going through the
      comprobante serializer (width 19). The numbers in `fallidos` are the ones
      that serializer rejects; the first of them aborts the whole request. */
  ghost function CrearSerieLegacy(db: Db, d: SerieNueva, hoy: Fecha, fallidos: set<int>): (r: (Result<nat>, Db))
    ensures r.0.Err? ==> r.1 == db
    ensures r.0.Err? && r.0.error.ComprobanteInvalido? ==> r.0.error.numero in fallidos
    ensures r.0.Ok? ==> r.0.value == db.sigSerie && r.1.series == db.series[db.sigSerie := SerieDe(d)]
    ensures r.1.facturas == db.facturas && r.1.cotizaciones == db.cotizaciones
    ensures db.comprobantes.Keys <= r.1.comprobantes.Keys
  {
    if d.tipo !in db.tipos then (Err(ReferenciaInvalida), db)
    else if ValidarSerieLegacy(DatosDeAlta(d)).Err? then (Err(RangoInvalido), db)
    else if d.desde.None? || d.hasta.None? then (Err(RangoIncompleto), db)
    else if PrimerFallido(d.desde.value, d.hasta.value, fallidos).Some? then
      (Err(ComprobanteInvalido(PrimerFallido(d.desde.value, d.hasta.value, fallidos).value)), db)
    else
      var gen := Generador(SerieDe(d), db.tipos[d.tipo], hoy, AnchoLegacy);
      (Ok(db.sigSerie), Alta(db, SerieDe(d), gen, d.desde.value, d.hasta.value))
  }

  /** A series update (current variant): validate against the stored series,
      then write the keys the request carries. */
  ghost function ActualizarSerie(db: Db, id: nat, d: SerieDatos): (r: (Result<nat>, Db))
    ensures r.0.Err? ==> r.1 == db
    ensures r.0.Ok? ==> r.0.value == id && r.1 == db.(series := r.1.series)
    ensures r.0.Ok? ==> id in db.series && id in r.1.series && r.1.series[id].anulado == db.series[id].anulado
    ensures r.0.Ok? ==> forall k :: k in db.series && k != id ==> k in r.1.series && r.1.series[k] == db.series[k]
  {
    if id !in db.series then (Err(NoEncontrado), db)
    else if d.tipo.Some? && d.tipo.value !in db.tipos then (Err(ReferenciaInvalida), db)
    else if ValidarSerie(d, Some(db.series[id]), db.comprobantes).Err? then
      (Err(ValidarSerie(d, Some(db.series[id]), db.comprobantes).error), db)
    else (Ok(id), db.(series := db.series[id := Aplicar(db.series[id], d)]))
  }

  /** A series update (older variant): only the range check. That serializer
      declares `tipo_comprobante` read-only, so a type the request sends is
      dropped unread and the stored type stays. */
  ghost function ActualizarSerieLegacy(db: Db, id: nat, d: SerieDatos): (r: (Result<nat>, Db))
    ensures r.0.Err? ==> r.1 == db
    ensures r.0.Ok? ==> r.0.value == id && r.1 == db.(series := r.1.series)
    ensures r.0.Ok? ==> id in db.series && id in r.1.series && r.1.series[id].tipo == db.series[id].tipo
    ensures r.0.Ok? ==> forall k :: k in db.series && k != id ==> k in r.1.series && r.1.series[k] == db.series[k]
  {
    if id !in db.series then (Err(NoEncontrado), db)
    else if ValidarSerieLegacy(d).Err? then (Err(RangoInvalido), db)
    else (Ok(id), db.(series := db.series[id := Aplicar(db.series[id], d.(tipo := None))]))
  }

  /** SerieComprobanteViewSet.anular: refuse a voided series; otherwise mark it
      voided and run the cascade; answer the number of records selected. */
  ghost function AnularSerie(db: Db, id: nat): (r: (Result<nat>, Db))
    ensures r.0.Err? ==> r.1 == db
    ensures r.0.Ok? ==> id in db.series && !db.series[id].anulado && id in r.1.series && r.1.series[id].anulado
    ensures r.1.facturas == db.facturas && r.1.cotizaciones == db.cotizaciones
  {
    if id !in db.series then (Err(NoEncontrado), db)
    else if db.series[id].anulado then (Err(SerieYaAnulada), db)
    else
      var s := db.series[id];
      (Ok(|Marcados(db.comprobantes, s)|),
       db.(series := db.series[id := s.(anulado := true)], comprobantes := AnularEnCascada(db.comprobantes, s)))
  }

  /** ComprobanteSerializer._generar_numero_completo with total width `ancho`
      (11 in the current variant, 19 in the older one). */
  ghost function GenerarNumeroCompleto(db: Db, cid: nat, ancho: int): (r: (Result<nat>, Db))
    ensures r.0.Err? ==> r.1 == db
    ensures r.0.Ok? ==> r.0.value == cid && r.1 == db.(comprobantes := r.1.comprobantes)
    ensures r.0.Ok? ==> cid in db.comprobantes && cid in r.1.comprobantes && r.1.comprobantes[cid].completo.Some?
  {
    if cid !in db.comprobantes then (Err(NoEncontrado), db)
    else if db.comprobantes[cid].tipo !in db.tipos then (Err(ReferenciaInvalida), db)
    else
      var c := db.comprobantes[cid];
      var completo := FormatNcf(db.tipos[c.tipo], c.numero, ancho);
      (Ok(cid), db.(comprobantes := db.comprobantes[cid := c.(completo := Some(completo))]))
  }

  // ---------------------------------------------------------------- allocation

  /** The comprobante `.first()` picks among the free ones of a type: the
      lowest key. `anulado` is not part of the filter. */
  ghost function PrimerDisponible(comps: map<nat, Comprobante>, tipo: nat): (r: Option<nat>)
    ensures r.None? <==> forall k :: k in comps ==> !Disponible(comps[k], tipo)
    ensures r.Some? ==> r.value in comps && Disponible(comps[r.value], tipo)
    ensures r.Some? ==> forall k :: k in comps && Disponible(comps[k], tipo) ==> r.value <= k
  {
    var ks := set k | k in comps && Disponible(comps[k], tipo);
    assert forall k :: k in comps && Disponible(comps[k], tipo) ==> k in ks;
    if ks == {} then None else Some(MinNat(ks))
  }

  /** A series containing number n: a series of the type whose bounds are both
      set and enclose n (a null bound never matches the filter). */
  predicate Contiene(s: Serie, tipo: nat, n: int) {
    s.tipo == tipo && s.desde.Some? && s.hasta.Some? && s.desde.value <= n <= s.hasta.value
  }

  /** _actualizar_numero_actual_serie: the first (lowest-key) series containing
      the used number gets it as its cursor; voided series are not skipped. */
  ghost function ActualizarNumeroActual(series: map<nat, Serie>, tipo: nat, n: int): (r: map<nat, Serie>)
    ensures r.Keys == series.Keys
    ensures forall k :: k in r ==> r[k] == series[k] || r[k] == series[k].(numeroActual := n)
  {
    var ks := set k | k in series && Contiene(series[k], tipo, n);
    if ks == {} then series
    else
      var k := MinNat(ks);
      series[k := series[k].(numeroActual := n)]
  }

  /** The link step after an NCF is assigned: the comprobante records the
      invoice and its client, and the containing series' cursor moves. */
  ghost function Vincular(db: Db, c: nat, f: nat): (r: Db)
    requires c in db.comprobantes && f in db.facturas
    ensures r.facturas == db.facturas && r.cotizaciones == db.cotizaciones
    ensures c in r.comprobantes && r.comprobantes[c].factura == Some(f) && r.comprobantes[c].cliente == Some(db.facturas[f].cliente)
  {
    var comp := db.comprobantes[c].(factura := Some(f), cliente := Some(db.facturas[f].cliente));
    db.(comprobantes := db.comprobantes[c := comp],
        series := ActualizarNumeroActual(db.series, comp.tipo, comp.numero))
  }

  // ---------------------------------------------------------------- invoices

  /** A creation request. The NCF field is read-only in the serializer, so a
      request never carries one; the state may be left out. */
  datatype FacturaNueva = FacturaNueva(
    tipo: nat,
    cliente: nat,
    estado: Option<EstadoFactura>,
    fechaEmision: Fecha,
    fechaVencimiento: Fecha,
    anulado: bool)

  /** The keys an update request carries; None for an absent key. */
  datatype FacturaCambios = FacturaCambios(
    tipo: Option<nat>,
    cliente: Option<nat>,
    estado: Option<EstadoFactura>,
    fechaEmision: Option<Fecha>,
    fechaVencimiento: Option<Fecha>,
    anulado: Option<bool>)

  /** FacturaSerializer.create: an invoice created as Activa gets the next number
      and the first free comprobante of its type, which is then linked back;
      with no free comprobante the request fails. Any other invoice is stored
      without number and without NCF. */
  ghost function CrearFactura(db: Db, d: FacturaNueva): (r: (Result<nat>, Db))
    ensures r.0.Err? ==> r.1 == db && (r.0.error == ReferenciaInvalida || r.0.error == SinComprobantesDisponibles)
    ensures r.0.Ok? ==> r.0.value == db.sigFactura && r.0.value in r.1.facturas && r.1.facturas[r.0.value].tipo == d.tipo && r.1.facturas[r.0.value].cliente == d.cliente
    ensures r.1.cotizaciones == db.cotizaciones
  {
    if d.tipo !in db.tipos || d.cliente !in db.clientes then (Err(ReferenciaInvalida), db)
    else
      var id := db.sigFactura;
      if d.estado == Some(Activa) then
        var c := PrimerDisponible(db.comprobantes, d.tipo);
        if c.None? then (Err(SinComprobantesDisponibles), db)
        else
          var f := Factura(Some(SiguienteNumero(db.facturas)), d.tipo, c, d.fechaEmision, d.fechaVencimiento,
                           d.anulado, Activa, d.cliente);
          (Ok(id), Vincular(db.(facturas := db.facturas[id := f], sigFactura := id + 1), c.value, id))
      else
        var f := Factura(None, d.tipo, None, d.fechaEmision, d.fechaVencimiento,
                         d.anulado, d.estado.GetOr(EstadoPorDefecto), d.cliente);
        (Ok(id), db.(facturas := db.facturas[id := f], sigFactura := id + 1))
  }

  /** The activation condition of FacturaSerializer.update. */
  predicate Activacion(inst: Factura, d: FacturaCambios): (b: bool)
    ensures b ==> inst.numero.None? || inst.numero.value == 0
    ensures b ==> d.estado == Some(Activa) && inst.estado != Activa
  {
    d.estado == Some(Activa) && inst.estado != Activa && !Truthy(inst.numero)
  }

  /** FacturaSerializer.update: on activation the invoice gets the next number
      and, if it has no NCF yet, the first free comprobante of its STORED type;
      then the request's keys are written, and an NCF whose comprobante names
      no invoice yet is linked back. No state is protected from edits. */
  ghost function ActualizarFactura(db: Db, id: nat, d: FacturaCambios): (r: (Result<nat>, Db))
    ensures r.0.Err? ==> r.1 == db
    ensures r.0.Ok? ==> r.0.value == id && id in db.facturas && id in r.1.facturas
    ensures r.0.Ok? ==> forall k :: k in db.facturas && k != id ==> k in r.1.facturas && r.1.facturas[k] == db.facturas[k]
    ensures r.1.cotizaciones == db.cotizaciones
  {
    if id !in db.facturas then (Err(NoEncontrado), db)
    else if (d.tipo.Some? && d.tipo.value !in db.tipos) || (d.cliente.Some? && d.cliente.value !in db.clientes) then
      (Err(ReferenciaInvalida), db)
    else
      var inst := db.facturas[id];
      var activar := Activacion(inst, d);
      var nuevo := if activar && inst.ncf.None? then PrimerDisponible(db.comprobantes, inst.tipo) else None;
      if activar && inst.ncf.None? && nuevo.None? then (Err(SinComprobantesDisponibles), db)
      else
        var f := Factura(
          if activar then Some(SiguienteNumero(db.facturas)) else inst.numero,
          d.tipo.GetOr(inst.tipo),
          if nuevo.Some? then nuevo else inst.ncf,
          d.fechaEmision.GetOr(inst.fechaEmision),
          d.fechaVencimiento.GetOr(inst.fechaVencimiento),
          d.anulado.GetOr(inst.anulado),
          d.estado.GetOr(inst.estado),
          d.cliente.GetOr(inst.cliente));
        var db1 := db.(facturas := db.facturas[id := f]);
        if f.ncf.Some? && f.ncf.value in db1.comprobantes && db1.comprobantes[f.ncf.value].factura.None? then
          (Ok(id), Vincular(db1, f.ncf.value, id))
        else (Ok(id), db1)
  }

  /** A quote creation request. */
  datatype CotizacionNueva = CotizacionNueva(
    cliente: nat,
    fechaEmision: Fecha,
    fechaVencimiento: Fecha,
    anulado: bool)

  /** CotizacionSerializer.create: every quote gets the next quote number. */
  ghost function CrearCotizacion(db: Db, d: CotizacionNueva): (r: (Result<nat>, Db))
    ensures r.0.Err? ==> r.1 == db
    ensures r.0.Ok? ==> r.0.value == db.sigCotizacion && r.0.value in r.1.cotizaciones
    ensures r.0.Ok? ==> forall k :: k in db.cotizaciones && k != db.sigCotizacion ==> k in r.1.cotizaciones && r.1.cotizaciones[k] == db.cotizaciones[k]
    ensures r.1.facturas == db.facturas && r.1.comprobantes == db.comprobantes && r.1.series == db.series
  {
    if d.cliente !in db.clientes then (Err(ReferenciaInvalida), db)
    else
      var id := db.sigCotizacion;
      var q := Cotizacion(SiguienteCotizacion(db.cotizaciones), d.fechaEmision, d.fechaVencimiento, d.anulado, d.cliente);
      (Ok(id), db.(cotizaciones := db.cotizaciones[id := q], sigCotizacion := id + 1))
  }
}
