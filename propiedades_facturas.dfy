/** What the invoice and quote requests guarantee about the tables: integrity is
    kept, an activated invoice takes the first free comprobante of its type and
    the next number, each comprobante serves at most one invoice, and every
    quote gets a fresh number. */
module PropiedadesFacturas {
  import opened Base
  import opened Colecciones
  import opened ComprobantesModelos
  import opened ComprobantesSerializers
  import opened ComprobantesApi
  import opened FacturasModelos
  import opened BaseDatos

  /** Under the two-way link, no two invoices hold the same comprobante, and a
      comprobante held by an invoice is never offered as free again. */
  lemma NcfUnico(db: Db)
    requires Enlaces(db)
    ensures forall f, g :: (f in db.facturas && g in db.facturas && db.facturas[f].ncf.Some?
                            && db.facturas[f].ncf == db.facturas[g].ncf) ==> f == g
    ensures forall f, t :: f in db.facturas && db.facturas[f].ncf.Some? ==>
              !Disponible(db.comprobantes[db.facturas[f].ncf.value], t)
  {
    forall f, g | f in db.facturas && g in db.facturas && db.facturas[f].ncf.Some?
                  && db.facturas[f].ncf == db.facturas[g].ncf
      ensures f == g
    {
      var c := db.facturas[f].ncf.value;
      assert db.comprobantes[c].factura == Some(f);
      assert db.comprobantes[c].factura == Some(g);
    }
  }

  /** The cursor step of the link: the lowest-key series of the type whose
      bounds enclose n gets n as its cursor; every other series is untouched,
      and without such a series nothing changes. */
  lemma CursorSerie(series: map<nat, Serie>, tipo: nat, n: int)
    ensures var r := ActualizarNumeroActual(series, tipo, n);
      && ((forall k :: k in series ==> !Contiene(series[k], tipo, n)) ==> r == series)
      && ((exists k :: k in series && Contiene(series[k], tipo, n)) ==>
            exists j :: && j in series && Contiene(series[j], tipo, n)
                        && (forall k :: k in series && Contiene(series[k], tipo, n) ==> j <= k)
                        && r == series[j := series[j].(numeroActual := n)])
  {
    var ks := set k | k in series && Contiene(series[k], tipo, n);
    assert forall k :: k in series && Contiene(series[k], tipo, n) ==> k in ks;
    if ks != {} {
      var j := MinNat(ks);
    }
  }

  /** Linking a free comprobante to an invoice written under key `id`, where
      that invoice held no NCF before, keeps the link two-way. */
  lemma VincularEnlaces(db: Db, id: nat, f: Factura, c: nat)
    requires Enlaces(db)
    requires id in db.facturas ==> db.facturas[id].ncf.None?
    requires f.ncf == Some(c) && c in db.comprobantes && db.comprobantes[c].factura.None?
    ensures Enlaces(Vincular(db.(facturas := db.facturas[id := f]), c, id))
  {
    var db1 := db.(facturas := db.facturas[id := f]);
    var r := Vincular(db1, c, id);
    forall k | k in r.comprobantes && r.comprobantes[k].factura.Some?
      ensures r.comprobantes[k].factura.value in r.facturas
      ensures r.facturas[r.comprobantes[k].factura.value].ncf == Some(k)
    {
      if k != c {
        var g := db.comprobantes[k].factura.value;
        assert g != id;
      }
    }
    forall g | g in r.facturas && r.facturas[g].ncf.Some?
      ensures r.facturas[g].ncf.value in r.comprobantes
      ensures r.comprobantes[r.facturas[g].ncf.value].factura == Some(g)
    {
      if g != id {
        assert db.facturas[g].ncf.value != c;
      }
    }
  }

  /** ... and keeps the tables intact. */
  lemma VincularPreserva(db: Db, id: nat, f: Factura, c: nat)
    requires Integra(db)
    requires id < db.sigFactura && f.tipo in db.tipos && f.cliente in db.clientes
    requires id in db.facturas ==> db.facturas[id].ncf.None?
    requires f.ncf == Some(c) && c in db.comprobantes && db.comprobantes[c].factura.None?
    requires NumerosUnicos(db.facturas[id := f])
    ensures Integra(Vincular(db.(facturas := db.facturas[id := f]), c, id))
  {
    VincularEnlaces(db, id, f, c);
  }

  /** A write of invoice `id` that keeps its NCF, where that NCF (if any) is
      already linked to it, keeps the tables intact. */
  lemma EscrituraPreserva(db: Db, id: nat, f: Factura)
    requires Integra(db)
    requires id in db.facturas && f.tipo in db.tipos && f.cliente in db.clientes
    requires f.ncf == db.facturas[id].ncf
    requires NumerosUnicos(db.facturas[id := f])
    ensures Integra(db.(facturas := db.facturas[id := f]))
  {
  }

  /** The Activa branch of the creation keeps the tables intact. */
  lemma CrearActivaPreserva(db: Db, d: FacturaNueva)
    requires Integra(db)
    requires d.estado == Some(Activa) && CrearFactura(db, d).0.Ok?
    ensures Integra(CrearFactura(db, d).1)
  {
    var id := db.sigFactura;
    var c := PrimerDisponible(db.comprobantes, d.tipo);
    var f := Factura(Some(SiguienteNumero(db.facturas)), d.tipo, c, d.fechaEmision, d.fechaVencimiento,
                     d.anulado, Activa, d.cliente);
    var db0 := db.(sigFactura := id + 1);
    assert CrearFactura(db, d).1 == Vincular(db0.(facturas := db0.facturas[id := f]), c.value, id);
    NumeroNuevoUnico(db.facturas, id, f);
    assert Integra(db0);
    VincularPreserva(db0, id, f, c.value);
  }

  lemma CrearFacturaPreserva(db: Db, d: FacturaNueva)
    requires Integra(db)
    ensures Integra(CrearFactura(db, d).1)
  {
    if CrearFactura(db, d).0.Ok? {
      if d.estado == Some(Activa) {
        CrearActivaPreserva(db, d);
      } else {
        var f := Solicitada(d);
        assert CrearFactura(db, d).1 == db.(facturas := db.facturas[db.sigFactura := f], sigFactura := db.sigFactura + 1);
        NumeroIgualUnico(db.facturas, db.sigFactura, f);
      }
    }
  }

  lemma ActualizarFacturaPreserva(db: Db, id: nat, d: FacturaCambios)
    requires Integra(db)
    ensures Integra(ActualizarFactura(db, id, d).1)
  {
    if ActualizarFactura(db, id, d).0.Ok? {
      var inst := db.facturas[id];
      var activar := Activacion(inst, d);
      var nuevo := if activar && inst.ncf.None? then PrimerDisponible(db.comprobantes, inst.tipo) else None;
      var f := Factura(
        if activar then Some(SiguienteNumero(db.facturas)) else inst.numero,
        d.tipo.GetOr(inst.tipo),
        if nuevo.Some? then nuevo else inst.ncf,
        d.fechaEmision.GetOr(inst.fechaEmision),
        d.fechaVencimiento.GetOr(inst.fechaVencimiento),
        d.anulado.GetOr(inst.anulado),
        d.estado.GetOr(inst.estado),
        d.cliente.GetOr(inst.cliente));
      if activar {
        NumeroNuevoUnico(db.facturas, id, f);
      } else {
        NumeroIgualUnico(db.facturas, id, f);
      }
      var db1 := db.(facturas := db.facturas[id := f]);
      assert ActualizarFactura(db, id, d).1
          == if f.ncf.Some? && f.ncf.value in db1.comprobantes && db1.comprobantes[f.ncf.value].factura.None?
             then Vincular(db1, f.ncf.value, id) else db1;
      if nuevo.Some? {
        VincularPreserva(db, id, f, nuevo.value);
      } else {
        EscrituraPreserva(db, id, f);
      }
    }
  }

  /** The invoice record a creation request describes before any number or NCF
      is assigned: the record Factura.clean would look at. */
  function Solicitada(d: FacturaNueva): (f: Factura)
    ensures f.numero.None? && f.ncf.None?
    ensures f.tipo == d.tipo && f.cliente == d.cliente && f.estado == d.estado.GetOr(EstadoPorDefecto)
  {
    Factura(None, d.tipo, None, d.fechaEmision, d.fechaVencimiento, d.anulado, d.estado.GetOr(EstadoPorDefecto), d.cliente)
  }

  /** With valid references, the serializer refuses a creation exactly when the
      model's clean would: an Activa invoice while no comprobante of its type
      is free. */
  lemma CrearFacturaComoClean(db: Db, d: FacturaNueva)
    requires d.tipo in db.tipos && d.cliente in db.clientes
    ensures CrearFactura(db, d).0.Err? <==> Clean(Solicitada(d), db.comprobantes).Err?
    ensures CrearFactura(db, d).0.Err? ==> CrearFactura(db, d) == (Err(SinComprobantesDisponibles), db)
  {
  }

  /** An invoice created as Activa takes the next number (above every stored
      number) and the lowest-key free comprobante of its type, which from then
      on names the invoice and its client and is no longer free; no other
      comprobante changes. */
  lemma CrearFacturaActiva(db: Db, d: FacturaNueva)
    requires d.estado == Some(Activa)
    requires CrearFactura(db, d).0.Ok?
    ensures var id := CrearFactura(db, d).0.value;
      var db2 := CrearFactura(db, d).1;
      && id == db.sigFactura && id in db2.facturas
      && db2.facturas[id].estado == Activa
      && db2.facturas[id].numero == Some(SiguienteNumero(db.facturas))
      && (forall k :: k in db.facturas && db.facturas[k].numero.Some? ==>
            db.facturas[k].numero.value < db2.facturas[id].numero.value)
      && db2.facturas[id].ncf.Some?
      && var c := db2.facturas[id].ncf.value;
      && c in db.comprobantes && Disponible(db.comprobantes[c], d.tipo)
      && (forall k :: k in db.comprobantes && Disponible(db.comprobantes[k], d.tipo) ==> c <= k)
      && db2.comprobantes == db.comprobantes[c := db.comprobantes[c].(factura := Some(id), cliente := Some(d.cliente))]
      && !Disponible(db2.comprobantes[c], d.tipo)
      && db2.series == ActualizarNumeroActual(db.series, d.tipo, db.comprobantes[c].numero)
      && db2.facturas == db.facturas[id := db2.facturas[id]]
      && db2.cotizaciones == db.cotizaciones
  {
  }

  /** An invoice created in any other state is stored without number and without
      NCF, in the requested state or Pendiente; comprobantes and series stay as
      they were. */
  lemma CrearFacturaNoActiva(db: Db, d: FacturaNueva)
    requires d.estado != Some(Activa)
    requires d.tipo in db.tipos && d.cliente in db.clientes
    ensures CrearFactura(db, d).0 == Ok(db.sigFactura)
    ensures var db2 := CrearFactura(db, d).1;
      && db2.facturas == db.facturas[db.sigFactura := Solicitada(d)]
      && db2.comprobantes == db.comprobantes && db2.series == db.series
  {
  }

  /** Activation draws the NCF for the invoice's STORED type, even when the same
      request changes the type; the invoice also gets the next number. The
      comprobante is linked back to the invoice and its (possibly new) client,
      the containing series' cursor moves to its number, and no other invoice
      or comprobante changes. */
  lemma ActivacionTipoGuardado(db: Db, id: nat, d: FacturaCambios)
    requires ActualizarFactura(db, id, d).0.Ok?
    requires id in db.facturas && Activacion(db.facturas[id], d) && db.facturas[id].ncf.None?
    ensures var db2 := ActualizarFactura(db, id, d).1;
      var f := db2.facturas[id];
      var t := db.facturas[id].tipo;
      && f.numero == Some(SiguienteNumero(db.facturas))
      && f.ncf == PrimerDisponible(db.comprobantes, t)
      && f.ncf.Some? && Disponible(db.comprobantes[f.ncf.value], t)
      && f.tipo == d.tipo.GetOr(t)
      && db2.facturas == db.facturas[id := f]
      && db2.comprobantes == db.comprobantes[f.ncf.value := db.comprobantes[f.ncf.value].(factura := Some(id), cliente := Some(f.cliente))]
      && db2.series == ActualizarNumeroActual(db.series, t, db.comprobantes[f.ncf.value].numero)
  {
  }

  /** Activating an invoice that already holds an NCF keeps that NCF: on intact
      tables the update succeeds, gives the next number, and touches no
      comprobante and no series. */
  lemma ActivacionConNcf(db: Db, id: nat, d: FacturaCambios)
    requires Integra(db)
    requires id in db.facturas && Activacion(db.facturas[id], d) && db.facturas[id].ncf.Some?
    requires d.tipo.None? || d.tipo.value in db.tipos
    requires d.cliente.None? || d.cliente.value in db.clientes
    ensures ActualizarFactura(db, id, d).0 == Ok(id)
    ensures var db2 := ActualizarFactura(db, id, d).1;
      && db2.facturas[id].ncf == db.facturas[id].ncf
      && db2.facturas[id].numero == Some(SiguienteNumero(db.facturas))
      && db2.facturas[id].estado == Activa
      && db2.comprobantes == db.comprobantes && db2.series == db.series
  {
    var c := db.facturas[id].ncf.value;
    assert db.comprobantes[c].factura == Some(id);
  }

  /** Without activation an update keeps the invoice's number and NCF and, on
      intact tables, touches no comprobante and no series. The state itself is
      never protected: any stored state may be overwritten. */
  lemma SinActivacion(db: Db, id: nat, d: FacturaCambios)
    requires Integra(db)
    requires id in db.facturas && !Activacion(db.facturas[id], d)
    requires d.tipo.None? || d.tipo.value in db.tipos
    requires d.cliente.None? || d.cliente.value in db.clientes
    ensures ActualizarFactura(db, id, d).0 == Ok(id)
    ensures var db2 := ActualizarFactura(db, id, d).1;
      && db2.facturas[id].numero == db.facturas[id].numero
      && db2.facturas[id].ncf == db.facturas[id].ncf
      && db2.facturas[id].estado == d.estado.GetOr(db.facturas[id].estado)
      && db2.comprobantes == db.comprobantes && db2.series == db.series
  {
  }

  /** Activation happens at most once: after it, the invoice is Activa, so no
      later request activates it again. */
  lemma ActivacionUnaVez(db: Db, id: nat, d: FacturaCambios, e: FacturaCambios)
    requires ActualizarFactura(db, id, d).0.Ok?
    requires id in db.facturas && Activacion(db.facturas[id], d)
    ensures !Activacion(ActualizarFactura(db, id, d).1.facturas[id], e)
  {
  }

  /** An invoice creation keeps every stored number at least 1. */
  lemma CrearFacturaPositivos(db: Db, d: FacturaNueva)
    requires NumerosPositivos(db.facturas)
    ensures NumerosPositivos(CrearFactura(db, d).1.facturas)
  {
    SiguientePositivo(db.facturas);
    if CrearFactura(db, d).0.Ok? {
      var id := db.sigFactura;
      var fs := CrearFactura(db, d).1.facturas;
      assert fs == db.facturas[id := fs[id]];
      assert fs[id].numero.None? || fs[id].numero == Some(SiguienteNumero(db.facturas));
    }
  }

  /** An invoice update keeps every stored number at least 1. */
  lemma ActualizarFacturaPositivos(db: Db, id: nat, e: FacturaCambios)
    requires NumerosPositivos(db.facturas)
    ensures NumerosPositivos(ActualizarFactura(db, id, e).1.facturas)
  {
    SiguientePositivo(db.facturas);
    if ActualizarFactura(db, id, e).0.Ok? {
      var fs := ActualizarFactura(db, id, e).1.facturas;
      assert fs == db.facturas[id := fs[id]];
      assert fs[id].numero == db.facturas[id].numero || fs[id].numero == Some(SiguienteNumero(db.facturas));
    }
  }

  /** The tables after a sequence of updates of one invoice, in order. */
  ghost function Actualizaciones(db: Db, id: nat, es: seq<FacturaCambios>): Db
    decreases |es|
  {
    if es == [] then db else Actualizaciones(ActualizarFactura(db, id, es[0]).1, id, es[1..])
  }

  /** An invoice whose number is truthy keeps it through any sequence of
      updates: none of them can activate it. */
  lemma {:induction false} NumeroConservado(db: Db, id: nat, es: seq<FacturaCambios>)
    requires id in db.facturas && Truthy(db.facturas[id].numero)
    ensures var db2 := Actualizaciones(db, id, es);
      id in db2.facturas && db2.facturas[id].numero == db.facturas[id].numero
    decreases |es|
  {
    if es != [] {
      var db1 := ActualizarFactura(db, id, es[0]).1;
      assert !Activacion(db.facturas[id], es[0]);
      assert id in db1.facturas && db1.facturas[id].numero == db.facturas[id].numero;
      NumeroConservado(db1, id, es[1..]);
    }
  }

  /** On tables whose numbers are all at least 1, an activated invoice is never
      activated again: after any sequence of later updates it still has the
      number it got, and no request activates it. */
  lemma ActivacionesPosteriores(db: Db, id: nat, d: FacturaCambios, es: seq<FacturaCambios>, e: FacturaCambios)
    requires NumerosPositivos(db.facturas)
    requires ActualizarFactura(db, id, d).0.Ok?
    requires id in db.facturas && Activacion(db.facturas[id], d)
    ensures SiguienteNumero(db.facturas) >= 1
    ensures var db3 := Actualizaciones(ActualizarFactura(db, id, d).1, id, es);
      && id in db3.facturas
      && db3.facturas[id].numero == Some(SiguienteNumero(db.facturas))
      && !Activacion(db3.facturas[id], e)
  {
    SiguientePositivo(db.facturas);
    NumeroConservado(ActualizarFactura(db, id, d).1, id, es);
  }

  /** Voiding a series does not take its comprobantes out of circulation: the
      free comprobantes of every type, and so the one an invoice would draw,
      are the same before and after `anular`. */
  lemma AnuladoSigueDisponible(db: Db, id: nat, tipo: nat)
    requires AnularSerie(db, id).0.Ok?
    ensures var comps2 := AnularSerie(db, id).1.comprobantes;
      && (forall k :: k in db.comprobantes ==> (Disponible(comps2[k], tipo) <==> Disponible(db.comprobantes[k], tipo)))
      && PrimerDisponible(comps2, tipo) == PrimerDisponible(db.comprobantes, tipo)
  {
    var comps := db.comprobantes;
    var comps2 := AnularSerie(db, id).1.comprobantes;
    assert (set k | k in comps2 && Disponible(comps2[k], tipo)) == (set k | k in comps && Disponible(comps[k], tipo));
  }

  lemma CrearCotizacionPreserva(db: Db, d: CotizacionNueva)
    requires Integra(db)
    ensures Integra(CrearCotizacion(db, d).1)
  {
  }

  /** Every new quote gets a number above all stored ones, 1 for the first. */
  lemma CotizacionNumerada(db: Db, d: CotizacionNueva)
    requires CrearCotizacion(db, d).0.Ok?
    ensures CrearCotizacion(db, d).0 == Ok(db.sigCotizacion)
    ensures var q := CrearCotizacion(db, d).1.cotizaciones[db.sigCotizacion];
      && (forall k :: k in db.cotizaciones ==> db.cotizaciones[k].numero < q.numero)
      && (db.cotizaciones == map[] ==> q.numero == 1)
      && q.cliente == d.cliente
  {
  }
}
