/** The tables as one mutable store whose methods perform the requests step by
    step, as the serializers and views do. Each method is proved to leave the
    store in the state its transition in BaseDatos prescribes and to answer
    what it answers, so every property proved about the transitions holds of
    the store; every method also keeps the tables intact. Each method runs as
    one atomic request: it either completes or returns an error having written
    nothing. */
module Almacen {
  import opened Base
  import opened Colecciones
  import opened ComprobantesModelos
  import opened ComprobantesSerializers
  import opened ComprobantesApi
  import opened FacturasModelos
  import opened BaseDatos
  import opened Consultas
  import opened PropiedadesSeries
  import opened PropiedadesFacturas

  class Store {
    var tipos: map<nat, string>
    var clientes: set<nat>
    var series: map<nat, Serie>
    var comprobantes: map<nat, Comprobante>
    var facturas: map<nat, Factura>
    var cotizaciones: map<nat, Cotizacion>
    var sigSerie: nat
    var sigComprobante: nat
    var sigFactura: nat
    var sigCotizacion: nat

    /** The store's tables as a value. */
    function Bd(): Db
      reads this
    {
      Db(tipos, clientes, series, comprobantes, facturas, cotizaciones,
         sigSerie, sigComprobante, sigFactura, sigCotizacion)
    }

    ghost predicate Valid()
      reads this
    {
      Integra(Bd())
    }

    /** Empty tables over the given document types and clients. */
    constructor(tipos0: map<nat, string>, clientes0: set<nat>)
      ensures Bd() == Vacia(tipos0, clientes0)
      ensures Valid()
    {
      tipos, clientes := tipos0, clientes0;
      series, comprobantes, facturas, cotizaciones := map[], map[], map[], map[];
      sigSerie, sigComprobante, sigFactura, sigCotizacion := 0, 0, 0, 0;
      VaciaIntegra(tipos0, clientes0);
    }

    /** The generation loop of a series creation, building in local variables
        what the transaction commits: one comprobante per number of
        `range(desde, hasta + 1)`, built by `gen`, under consecutive keys from
        `base`. */
    static method Generar(comps0: map<nat, Comprobante>, base: nat, gen: int -> Comprobante, desde: int, hasta: int)
      returns (comps: map<nat, Comprobante>, sig: nat)
      ensures comps == comps0 + Pool(base, gen, desde, Cantidad(desde, hasta))
      ensures sig == base + Cantidad(desde, hasta)
    {
      var nuevos: map<nat, Comprobante> := map[];
      sig := base;
      var numero := desde;
      while numero <= hasta
        invariant desde <= numero && numero - desde <= Cantidad(desde, hasta)
        invariant sig == base + (numero - desde)
        invariant nuevos == Pool(base, gen, desde, numero - desde)
        decreases hasta - numero
      {
        nuevos := nuevos[sig := gen(numero)];
        sig := sig + 1;
        numero := numero + 1;
      }
      comps := comps0 + nuevos;
    }

    /** The commit both creates share: the new series under the next key and
        its comprobantes, one per number of the range. */
    method Registrar(s: Serie, gen: int -> Comprobante, desde: int, hasta: int) returns (id: nat)
      modifies this
      ensures id == old(sigSerie)
      ensures Bd() == Alta(old(Bd()), s, gen, desde, hasta)
    {
      var comps, sig := Generar(comprobantes, sigComprobante, gen, desde, hasta);
      id := sigSerie;
      series := series[sigSerie := s];
      sigSerie := sigSerie + 1;
      comprobantes, sigComprobante := comps, sig;
    }

    /** The older create's loop over the range, stopping at the first number
        whose comprobante serializer fails. */
    static method PrimerFallo(desde: int, hasta: int, fallidos: set<int>) returns (r: Option<int>)
      ensures r == PrimerFallido(desde, hasta, fallidos)
    {
      var numero := desde;
      while numero <= hasta
        invariant desde <= numero && (desde <= hasta ==> numero <= hasta + 1)
        invariant PrimerFallido(desde, hasta, fallidos) == PrimerFallido(numero, hasta, fallidos)
        decreases hasta - numero
      {
        if numero in fallidos {
          return Some(numero);
        }
        numero := numero + 1;
      }
      return None;
    }

    /** SerieComprobanteSerializer.create (current variant). */
    method CreateSerie(d: SerieNueva, hoy: Fecha) returns (r: Result<nat>)
      requires Valid()
      modifies this
      ensures r == CrearSerie(old(Bd()), d, hoy).0 && Bd() == CrearSerie(old(Bd()), d, hoy).1
      ensures Valid()
    {
      ghost var db := Bd();
      CrearSeriePreserva(db, d, hoy);
      if d.tipo !in tipos {
        return Err(ReferenciaInvalida);
      }
      var v := ValidarSerie(DatosDeAlta(d), None, comprobantes);
      if v.Err? {
        return Err(v.error);
      }
      if d.desde.None? || d.hasta.None? {
        return Err(RangoIncompleto);
      }
      var s := SerieDe(d);
      var gen := Generador(s, tipos[d.tipo], hoy, AnchoSerie);
      assert CrearSerie(db, d, hoy) == (Ok(db.sigSerie), Alta(db, s, gen, d.desde.value, d.hasta.value));
      var id := Registrar(s, gen, d.desde.value, d.hasta.value);
      r := Ok(id);
    }

    /** The older create: the same loop, where the first number whose
        comprobante serializer fails (a number in `fallidos`) aborts the request
        and nothing is kept. */
    method CreateSerieLegacy(d: SerieNueva, hoy: Fecha, fallidos: set<int>) returns (r: Result<nat>)
      requires Valid()
      modifies this
      ensures r == CrearSerieLegacy(old(Bd()), d, hoy, fallidos).0
      ensures Bd() == CrearSerieLegacy(old(Bd()), d, hoy, fallidos).1
      ensures Valid()
    {
      ghost var db := Bd();
      CrearSerieLegacyPreserva(db, d, hoy, fallidos);
      if d.tipo !in tipos {
        return Err(ReferenciaInvalida);
      }
      if ValidarSerieLegacy(DatosDeAlta(d)).Err? {
        return Err(RangoInvalido);
      }
      if d.desde.None? || d.hasta.None? {
        return Err(RangoIncompleto);
      }
      var desde, hasta := d.desde.value, d.hasta.value;
      var fallo := PrimerFallo(desde, hasta, fallidos);
      if fallo.Some? {
        return Err(ComprobanteInvalido(fallo.value));
      }
      var s := SerieDe(d);
      var gen := Generador(s, tipos[d.tipo], hoy, AnchoLegacy);
      assert CrearSerieLegacy(db, d, hoy, fallidos) == (Ok(db.sigSerie), Alta(db, s, gen, desde, hasta));
      var id := Registrar(s, gen, desde, hasta);
      r := Ok(id);
    }

    /** A series update (current variant). */
    method UpdateSerie(id: nat, d: SerieDatos) returns (r: Result<nat>)
      requires Valid()
      modifies this
      ensures r == ActualizarSerie(old(Bd()), id, d).0 && Bd() == ActualizarSerie(old(Bd()), id, d).1
      ensures Valid()
    {
      ActualizarSeriePreserva(Bd(), id, d);
      if id !in series {
        return Err(NoEncontrado);
      }
      if d.tipo.Some? && d.tipo.value !in tipos {
        return Err(ReferenciaInvalida);
      }
      var v := ValidarSerie(d, Some(series[id]), comprobantes);
      if v.Err? {
        return Err(v.error);
      }
      series := series[id := Aplicar(series[id], d)];
      return Ok(id);
    }

    /** A series update (older variant). */
    method UpdateSerieLegacy(id: nat, d: SerieDatos) returns (r: Result<nat>)
      requires Valid()
      modifies this
      ensures r == ActualizarSerieLegacy(old(Bd()), id, d).0 && Bd() == ActualizarSerieLegacy(old(Bd()), id, d).1
      ensures Valid()
    {
      ActualizarSeriePreserva(Bd(), id, d);
      if id !in series {
        return Err(NoEncontrado);
      }
      if ValidarSerieLegacy(d).Err? {
        return Err(RangoInvalido);
      }
      // tipo_comprobante is read-only in this serializer: a sent type is dropped.
      series := series[id := Aplicar(series[id], d.(tipo := None))];
      return Ok(id);
    }

    /** SerieComprobanteViewSet.anular: the series flag and the bulk update of
        the cascade, committed together. */
    method Anular(id: nat) returns (r: Result<nat>)
      requires Valid()
      modifies this
      ensures r == AnularSerie(old(Bd()), id).0 && Bd() == AnularSerie(old(Bd()), id).1
      ensures Valid()
    {
      AnularSeriePreserva(Bd(), id);
      if id !in series {
        return Err(NoEncontrado);
      }
      var s := series[id];
      if s.anulado {
        return Err(SerieYaAnulada);
      }
      series := series[id := s.(anulado := true)];
      var cantidad := |Marcados(comprobantes, s)|;
      comprobantes := AnularEnCascada(comprobantes, s);
      return Ok(cantidad);
    }

    /** ComprobanteSerializer._generar_numero_completo at width `ancho`. */
    method GenerarNumeroCompletoDe(cid: nat, ancho: int) returns (r: Result<nat>)
      requires Valid()
      modifies this
      ensures r == GenerarNumeroCompleto(old(Bd()), cid, ancho).0
      ensures Bd() == GenerarNumeroCompleto(old(Bd()), cid, ancho).1
      ensures Valid()
    {
      ghost var db := Bd();
      GenerarNumeroCompletoPreserva(db, cid, ancho);
      if cid !in comprobantes {
        return Err(NoEncontrado);
      }
      var c := comprobantes[cid];
      if c.tipo !in tipos {
        return Err(ReferenciaInvalida);
      }
      var completo := FormatNcf(tipos[c.tipo], c.numero, ancho);
      comprobantes := comprobantes[cid := c.(completo := Some(completo))];
      assert Bd() == GenerarNumeroCompleto(db, cid, ancho).1;
      return Ok(cid);
    }

    /** The link step: the comprobante records the invoice and its client, and
        _actualizar_numero_actual_serie moves the cursor of the series found. */
    method Enlazar(c: nat, f: nat)
      requires c in comprobantes && f in facturas
      modifies this
      ensures Bd() == Vincular(old(Bd()), c, f)
    {
      var comp := comprobantes[c].(factura := Some(f), cliente := Some(facturas[f].cliente));
      comprobantes := comprobantes[c := comp];
      var k := SerieQueContiene(series, comp.tipo, comp.numero);
      if k.Some? {
        series := series[k.value := series[k.value].(numeroActual := comp.numero)];
      }
    }

    /** FacturaSerializer.create. */
    method CreateFactura(d: FacturaNueva) returns (r: Result<nat>)
      requires Valid()
      modifies this
      ensures r == CrearFactura(old(Bd()), d).0 && Bd() == CrearFactura(old(Bd()), d).1
      ensures Valid()
    {
      CrearFacturaPreserva(Bd(), d);
      if d.tipo !in tipos || d.cliente !in clientes {
        return Err(ReferenciaInvalida);
      }
      if d.estado == Some(Activa) {
        r := CreateActiva(d);
      } else {
        var id := sigFactura;
        var f := Factura(None, d.tipo, None, d.fechaEmision, d.fechaVencimiento,
                         d.anulado, d.estado.GetOr(EstadoPorDefecto), d.cliente);
        facturas := facturas[id := f];
        sigFactura := id + 1;
        r := Ok(id);
      }
    }

    /** The Activa branch of the create: the next number, the first free
        comprobante of the type, and the link back. */
    method CreateActiva(d: FacturaNueva) returns (r: Result<nat>)
      requires d.tipo in tipos && d.cliente in clientes && d.estado == Some(Activa)
      modifies this
      ensures r == CrearFactura(old(Bd()), d).0 && Bd() == CrearFactura(old(Bd()), d).1
    {
      ghost var db := Bd();
      var id := sigFactura;
      var numero := SiguienteNumeroFactura(facturas);
      var c := PrimerLibre(comprobantes, d.tipo);
      if c.None? {
        return Err(SinComprobantesDisponibles);
      }
      var f := Factura(Some(numero), d.tipo, c, d.fechaEmision, d.fechaVencimiento, d.anulado, Activa, d.cliente);
      facturas := facturas[id := f];
      sigFactura := id + 1;
      assert CrearFactura(db, d) == (Ok(id), Vincular(Bd(), c.value, id));
      Enlazar(c.value, id);
      r := Ok(id);
    }

    /** FacturaSerializer.update. */
    method UpdateFactura(id: nat, d: FacturaCambios) returns (r: Result<nat>)
      requires Valid()
      modifies this
      ensures r == ActualizarFactura(old(Bd()), id, d).0 && Bd() == ActualizarFactura(old(Bd()), id, d).1
      ensures Valid()
    {
      ActualizarFacturaPreserva(Bd(), id, d);
      if id !in facturas {
        return Err(NoEncontrado);
      }
      if (d.tipo.Some? && d.tipo.value !in tipos) || (d.cliente.Some? && d.cliente.value !in clientes) {
        return Err(ReferenciaInvalida);
      }
      var inst := facturas[id];
      var activar := Activacion(inst, d);
      var numero := inst.numero;
      var nuevo: Option<nat> := None;
      if activar {
        var n := SiguienteNumeroFactura(facturas);
        numero := Some(n);
        if inst.ncf.None? {
          nuevo := PrimerLibre(comprobantes, inst.tipo);
          if nuevo.None? {
            return Err(SinComprobantesDisponibles);
          }
        }
      }
      var f := Factura(
        numero,
        d.tipo.GetOr(inst.tipo),
        if nuevo.Some? then nuevo else inst.ncf,
        d.fechaEmision.GetOr(inst.fechaEmision),
        d.fechaVencimiento.GetOr(inst.fechaVencimiento),
        d.anulado.GetOr(inst.anulado),
        d.estado.GetOr(inst.estado),
        d.cliente.GetOr(inst.cliente));
      facturas := facturas[id := f];
      if f.ncf.Some? && f.ncf.value in comprobantes && comprobantes[f.ncf.value].factura.None? {
        Enlazar(f.ncf.value, id);
      }
      return Ok(id);
    }

    /** CotizacionSerializer.create. */
    method CreateCotizacion(d: CotizacionNueva) returns (r: Result<nat>)
      requires Valid()
      modifies this
      ensures r == CrearCotizacion(old(Bd()), d).0 && Bd() == CrearCotizacion(old(Bd()), d).1
      ensures Valid()
    {
      CrearCotizacionPreserva(Bd(), d);
      if d.cliente !in clientes {
        return Err(ReferenciaInvalida);
      }
      var numero := SiguienteNumeroCotizacion(cotizaciones);
      var id := sigCotizacion;
      cotizaciones := cotizaciones[id := Cotizacion(numero, d.fechaEmision, d.fechaVencimiento, d.anulado, d.cliente)];
      sigCotizacion := id + 1;
      return Ok(id);
    }
  }
}
