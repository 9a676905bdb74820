/** What the series requests guarantee about the tables: integrity is kept, a
    new series brings exactly its range of fresh, free comprobantes and is locked
    from then on, and the void cascade flips exactly what it reports. */
module PropiedadesSeries {
  import opened Base
  import opened Colecciones
  import opened Texto
  import opened ComprobantesModelos
  import opened ComprobantesSerializers
  import opened ComprobantesApi
  import opened FacturasModelos
  import opened BaseDatos

  /** Storing a new series and a pool under fresh keys keeps the tables intact,
      as long as the series' type exists and the pool's records are of that type
      and belong to no invoice. */
  lemma AltaPreserva(db: Db, s: Serie, gen: int -> Comprobante, desde: int, hasta: int)
    requires Integra(db)
    requires s.tipo in db.tipos
    requires forall n :: gen(n).tipo == s.tipo && gen(n).factura.None?
    ensures Integra(Alta(db, s, gen, desde, hasta))
  {
    var cantidad := Cantidad(desde, hasta);
    var pool := Pool(db.sigComprobante, gen, desde, cantidad);
    var r := Alta(db, s, gen, desde, hasta);
    PoolElementos(db.sigComprobante, gen, desde, cantidad);
    assert forall k :: k in pool ==> pool[k].factura.None? && pool[k].tipo == s.tipo;
    forall f | f in r.facturas && r.facturas[f].ncf.Some?
      ensures r.comprobantes[r.facturas[f].ncf.value] == db.comprobantes[r.facturas[f].ncf.value]
    {
      assert r.facturas[f].ncf.value !in pool;
    }
  }

  lemma CrearSeriePreserva(db: Db, d: SerieNueva, hoy: Fecha)
    requires Integra(db)
    ensures Integra(CrearSerie(db, d, hoy).1)
  {
    if CrearSerie(db, d, hoy).0.Ok? {
      AltaPreserva(db, SerieDe(d), Generador(SerieDe(d), db.tipos[d.tipo], hoy, AnchoSerie), d.desde.value, d.hasta.value);
    }
  }

  lemma CrearSerieLegacyPreserva(db: Db, d: SerieNueva, hoy: Fecha, fallidos: set<int>)
    requires Integra(db)
    ensures Integra(CrearSerieLegacy(db, d, hoy, fallidos).1)
  {
    if CrearSerieLegacy(db, d, hoy, fallidos).0.Ok? {
      AltaPreserva(db, SerieDe(d), Generador(SerieDe(d), db.tipos[d.tipo], hoy, AnchoLegacy), d.desde.value, d.hasta.value);
    }
  }

  /** The shape of a successful creation: the next series key, and the pool
      built under the next comprobante keys. */
  lemma CrearSerieForma(db: Db, d: SerieNueva, hoy: Fecha)
    requires CrearSerie(db, d, hoy).0.Ok?
    ensures d.tipo in db.tipos && d.desde.Some? && d.hasta.Some?
    ensures CrearSerie(db, d, hoy).0 == Ok(db.sigSerie)
    ensures CrearSerie(db, d, hoy).1.series == db.series[db.sigSerie := SerieDe(d)]
    ensures CrearSerie(db, d, hoy).1.comprobantes
         == db.comprobantes + Pool(db.sigComprobante, Generador(SerieDe(d), db.tipos[d.tipo], hoy, AnchoSerie),
                                   d.desde.value, Cantidad(d.desde.value, d.hasta.value))
  {
  }

  /** A pool added under keys from `base` upward to tables whose keys are all
      below `base` keeps every existing record; each new record is the one built
      by `gen` for the number desde + (key - base), inside [desde, hasta]. */
  lemma PoolAnadido(comps: map<nat, Comprobante>, base: nat, gen: int -> Comprobante, desde: int, hasta: int)
    requires forall k :: k in comps ==> k < base
    ensures var todo := comps + Pool(base, gen, desde, Cantidad(desde, hasta));
      && comps.Keys <= todo.Keys
      && (forall k :: k in comps ==> todo[k] == comps[k])
      && (forall k :: k in todo && k !in comps ==>
            EnIntervalo(desde, hasta, desde + (k - base)) && todo[k] == gen(desde + (k - base)))
  {
    PoolElementos(base, gen, desde, Cantidad(desde, hasta));
  }

  /** ... and grows the table by hasta - desde + 1 records. */
  lemma PoolCardinal(comps: map<nat, Comprobante>, base: nat, gen: int -> Comprobante, desde: int, hasta: int)
    requires forall k :: k in comps ==> k < base
    ensures |comps + Pool(base, gen, desde, Cantidad(desde, hasta))| == |comps| + Cantidad(desde, hasta)
  {
    var pool := Pool(base, gen, desde, Cantidad(desde, hasta));
    PoolTamano(base, gen, desde, Cantidad(desde, hasta));
    assert comps.Keys !! pool.Keys;
    assert (comps + pool).Keys == comps.Keys + pool.Keys;
  }

  /** ... and every number of [desde, hasta] gets one new record. */
  lemma PoolCubre(comps: map<nat, Comprobante>, base: nat, gen: int -> Comprobante, desde: int, hasta: int)
    requires forall k :: k in comps ==> k < base
    ensures var todo := comps + Pool(base, gen, desde, Cantidad(desde, hasta));
      forall n :: EnIntervalo(desde, hasta, n) ==>
        exists k :: k in todo && k !in comps && todo[k] == gen(n)
  {
    var pool := Pool(base, gen, desde, Cantidad(desde, hasta));
    PoolElementos(base, gen, desde, Cantidad(desde, hasta));
    forall m | EnIntervalo(desde, hasta, m)
      ensures exists k :: k in comps + pool && k !in comps && (comps + pool)[k] == gen(m)
    {
      var k: nat := base + (m - desde);
      assert k in pool && k !in comps;
      assert (comps + pool)[k] == pool[k] == gen(desde + (k - base));
      assert desde + (k - base) == m;
    }
  }

  /** The records a series' generator adds are of the series' type, free, not
      voided, numbered inside [desde, hasta] and carry the NCF of their number. */
  lemma PoolNuevos(comps: map<nat, Comprobante>, base: nat, s: Serie, codigo: string, hoy: Fecha, ancho: int,
                   desde: int, hasta: int)
    requires forall k :: k in comps ==> k < base
    ensures var todo := comps + Pool(base, Generador(s, codigo, hoy, ancho), desde, Cantidad(desde, hasta));
      forall k :: k in todo && k !in comps ==>
        && EnIntervalo(desde, hasta, todo[k].numero)
        && todo[k].tipo == s.tipo && !todo[k].anulado && todo[k].cliente.None? && todo[k].factura.None?
        && todo[k].completo == Some(FormatNcf(codigo, todo[k].numero, ancho))
  {
    PoolAnadido(comps, base, Generador(s, codigo, hoy, ancho), desde, hasta);
  }

  /** A successful creation stores the series as requested and not voided
      under a fresh key, keeps every existing comprobante, and adds exactly
      hasta - desde + 1 new ones. */
  lemma CrearSerieConserva(db: Db, d: SerieNueva, hoy: Fecha)
    requires forall k :: k in db.series ==> k < db.sigSerie
    requires forall k :: k in db.comprobantes ==> k < db.sigComprobante
    requires CrearSerie(db, d, hoy).0.Ok?
    ensures d.tipo in db.tipos && d.desde.Some? && d.hasta.Some?
    ensures var id := CrearSerie(db, d, hoy).0.value;
      var db2 := CrearSerie(db, d, hoy).1;
      id !in db.series && db2.series == db.series[id := SerieDe(d)] && !db2.series[id].anulado
    ensures var db2 := CrearSerie(db, d, hoy).1;
      && db.comprobantes.Keys <= db2.comprobantes.Keys
      && (forall k :: k in db.comprobantes ==> db2.comprobantes[k] == db.comprobantes[k])
      && |db2.comprobantes| == |db.comprobantes| + Cantidad(d.desde.value, d.hasta.value)
  {
    CrearSerieForma(db, d, hoy);
    var gen := Generador(SerieDe(d), db.tipos[d.tipo], hoy, AnchoSerie);
    PoolAnadido(db.comprobantes, db.sigComprobante, gen, d.desde.value, d.hasta.value);
    PoolCardinal(db.comprobantes, db.sigComprobante, gen, d.desde.value, d.hasta.value);
  }

  /** Every comprobante a creation adds has a number in [desde, hasta], the
      series' type, no client, no invoice, `anulado` false and the NCF text of
      its number at width 10. */
  lemma CrearSerieNuevos(db: Db, d: SerieNueva, hoy: Fecha)
    requires forall k :: k in db.comprobantes ==> k < db.sigComprobante
    requires CrearSerie(db, d, hoy).0.Ok?
    ensures d.tipo in db.tipos && d.desde.Some? && d.hasta.Some?
    ensures var db2 := CrearSerie(db, d, hoy).1;
      forall k :: k in db2.comprobantes && k !in db.comprobantes ==>
        && EnIntervalo(d.desde.value, d.hasta.value, db2.comprobantes[k].numero)
        && db2.comprobantes[k].tipo == d.tipo && !db2.comprobantes[k].anulado
        && Disponible(db2.comprobantes[k], d.tipo)
        && db2.comprobantes[k].completo == Some(FormatNcf(db.tipos[d.tipo], db2.comprobantes[k].numero, AnchoSerie))
  {
    CrearSerieForma(db, d, hoy);
    PoolNuevos(db.comprobantes, db.sigComprobante, SerieDe(d), db.tipos[d.tipo], hoy, AnchoSerie,
               d.desde.value, d.hasta.value);
  }

  /** Every number of [desde, hasta] gets one of the new comprobantes, of the
      series' type. */
  lemma CrearSerieCubre(db: Db, d: SerieNueva, hoy: Fecha)
    requires forall k :: k in db.comprobantes ==> k < db.sigComprobante
    requires CrearSerie(db, d, hoy).0.Ok?
    ensures d.tipo in db.tipos && d.desde.Some? && d.hasta.Some?
    ensures var db2 := CrearSerie(db, d, hoy).1;
      forall n :: EnIntervalo(d.desde.value, d.hasta.value, n) ==>
        exists k :: k in db2.comprobantes && k !in db.comprobantes
                    && db2.comprobantes[k].numero == n && db2.comprobantes[k].tipo == d.tipo
  {
    CrearSerieForma(db, d, hoy);
    var gen := Generador(SerieDe(d), db.tipos[d.tipo], hoy, AnchoSerie);
    PoolCubre(db.comprobantes, db.sigComprobante, gen, d.desde.value, d.hasta.value);
  }

  /** A stored range with at least one number has a comprobante of its type in
      range: the one built for `desde`. */
  lemma AltaConComprobantes(db: Db, s: Serie, gen: int -> Comprobante, desde: int, hasta: int)
    requires forall k :: k in db.comprobantes ==> k < db.sigComprobante
    requires desde <= hasta && s.desde == Some(desde) && s.hasta == Some(hasta)
    requires gen(desde).tipo == s.tipo && gen(desde).numero == desde
    ensures db.sigSerie in Alta(db, s, gen, desde, hasta).series
    ensures HayComprobantesEnRango(s, Alta(db, s, gen, desde, hasta).comprobantes)
  {
    var base := db.sigComprobante;
    PoolElementos(base, gen, desde, Cantidad(desde, hasta));
    var todo := Alta(db, s, gen, desde, hasta).comprobantes;
    assert base in todo && todo[base] == gen(desde);
  }

  /** A freshly created series with a non-empty range reports generated
      comprobantes at once. */
  lemma SerieNuevaConComprobantes(db: Db, d: SerieNueva, hoy: Fecha)
    requires forall k :: k in db.series ==> k < db.sigSerie
    requires forall k :: k in db.comprobantes ==> k < db.sigComprobante
    requires CrearSerie(db, d, hoy).0.Ok?
    requires d.desde.Some? && d.hasta.Some? && d.desde.value <= d.hasta.value
    ensures var id := CrearSerie(db, d, hoy).0.value;
      var db2 := CrearSerie(db, d, hoy).1;
      id in db2.series && TieneComprobantesGenerados(Some(id), db2.series[id], db2.comprobantes)
  {
    var gen := Generador(SerieDe(d), db.tipos[d.tipo], hoy, AnchoSerie);
    assert CrearSerie(db, d, hoy) == (Ok(db.sigSerie), Alta(db, SerieDe(d), gen, d.desde.value, d.hasta.value));
    AltaConComprobantes(db, SerieDe(d), gen, d.desde.value, d.hasta.value);
  }

  /** An update of an existing series to existing types succeeds exactly when
      the serializer's validation accepts it. */
  lemma ActualizarSerieValida(db: Db, id: nat, d: SerieDatos)
    requires id in db.series
    requires d.tipo.None? || d.tipo.value in db.tipos
    ensures ActualizarSerie(db, id, d).0.Ok? <==> ValidarSerie(d, Some(db.series[id]), db.comprobantes).Ok?
  {
  }

  /** ... and is locked from then on: an update that sends any key other than
      fecha_vencimiento or numero_actual is refused. */
  lemma SerieNuevaBloqueada(db: Db, d: SerieNueva, hoy: Fecha, cambios: SerieDatos)
    requires forall k :: k in db.series ==> k < db.sigSerie
    requires forall k :: k in db.comprobantes ==> k < db.sigComprobante
    requires CrearSerie(db, d, hoy).0.Ok?
    requires d.desde.Some? && d.hasta.Some? && d.desde.value <= d.hasta.value
    requires RangoAceptable(Dato(cambios.desde), Dato(cambios.hasta))
    requires cambios.tipo.None? || cambios.tipo.value in db.tipos
    ensures var id := CrearSerie(db, d, hoy).0.value;
      var db2 := CrearSerie(db, d, hoy).1;
      ActualizarSerie(db2, id, cambios).0.Ok? <==> SoloCamposModificables(cambios)
  {
    var id := CrearSerie(db, d, hoy).0.value;
    var db2 := CrearSerie(db, d, hoy).1;
    SerieNuevaConComprobantes(db, d, hoy);
    CrearSerieForma(db, d, hoy);
    assert db2.tipos == db.tipos;
    ActualizarSerieValida(db2, id, cambios);
    BloqueoDeCampos(cambios, db2.series[id], db2.comprobantes);
  }

  lemma ActualizarSeriePreserva(db: Db, id: nat, d: SerieDatos)
    requires Integra(db)
    ensures Integra(ActualizarSerie(db, id, d).1)
    ensures Integra(ActualizarSerieLegacy(db, id, d).1)
  {
  }

  /** An update writes only the series it names, and only the keys the request
      carries; a locked series can still move its cursor and expiry date. */
  lemma ActualizarSerieEscribe(db: Db, id: nat, d: SerieDatos)
    requires ActualizarSerie(db, id, d).0.Ok?
    ensures var db2 := ActualizarSerie(db, id, d).1;
      && id in db.series
      && db2 == db.(series := db.series[id := Aplicar(db.series[id], d)])
      && (HayComprobantesEnRango(db.series[id], db.comprobantes) ==>
            db2.series[id].tipo == db.series[id].tipo
            && db2.series[id].desde == db.series[id].desde
            && db2.series[id].hasta == db.series[id].hasta)
  {
  }

  lemma AnularSeriePreserva(db: Db, id: nat)
    requires Integra(db)
    ensures Integra(AnularSerie(db, id).1)
  {
    if AnularSerie(db, id).0.Ok? {
      var s := db.series[id];
      var r := AnularSerie(db, id).1;
      CascadaExacta(db.comprobantes, s);
      forall c | c in r.comprobantes
        ensures r.comprobantes[c].factura == db.comprobantes[c].factura
        ensures r.comprobantes[c].tipo == db.comprobantes[c].tipo
      {
      }
    }
  }

  /** A successful `anular` marks the series voided, voids exactly the free,
      not-yet-voided comprobantes of its type in its range, reports how many
      that was, and changes nothing else. */
  lemma AnularExacto(db: Db, id: nat)
    requires AnularSerie(db, id).0.Ok?
    ensures var (r, db2) := AnularSerie(db, id);
      && id in db.series && !db.series[id].anulado
      && db2.series == db.series[id := db.series[id].(anulado := true)]
      && db2.comprobantes.Keys == db.comprobantes.Keys
      && (forall k :: k in db.comprobantes ==>
            if ParaAnular(db.comprobantes[k], db.series[id])
            then db2.comprobantes[k] == db.comprobantes[k].(anulado := true)
            else db2.comprobantes[k] == db.comprobantes[k])
      && r.value == |set k | k in db.comprobantes && !db.comprobantes[k].anulado && db2.comprobantes[k].anulado|
      && db2.facturas == db.facturas && db2.cotizaciones == db.cotizaciones
  {
    CascadaExacta(db.comprobantes, db.series[id]);
  }

  /** `anular` on a voided series fails and writes nothing; so a second `anular`
      of the same series always fails. */
  lemma AnularDosVeces(db: Db, id: nat)
    requires AnularSerie(db, id).0.Ok?
    ensures AnularSerie(AnularSerie(db, id).1, id) == (Err(SerieYaAnulada), AnularSerie(db, id).1)
  {
  }

  lemma GenerarNumeroCompletoPreserva(db: Db, cid: nat, ancho: int)
    requires Integra(db)
    ensures Integra(GenerarNumeroCompleto(db, cid, ancho).1)
  {
  }

  /** _generar_numero_completo writes the NCF text of the comprobante's own type
      and number, which reads back as that number. */
  lemma GenerarNumeroCompletoEscribe(db: Db, cid: nat, ancho: int)
    requires GenerarNumeroCompleto(db, cid, ancho).0.Ok?
    ensures var db2 := GenerarNumeroCompleto(db, cid, ancho).1;
      var c := db.comprobantes[cid];
      && db2.comprobantes[cid].completo.Some?
      && var t := db2.comprobantes[cid].completo.value;
      && t[..|db.tipos[c.tipo]|] == db.tipos[c.tipo]
      && ParseInt(t[|db.tipos[c.tipo]|..]) == Some(c.numero)
      && db2.comprobantes[cid] == c.(completo := db2.comprobantes[cid].completo)
  {
    var c := db.comprobantes[cid];
    FormatNcfRoundTrip(db.tipos[c.tipo], c.numero, ancho);
  }
}
