/** The queries of the core as loops over the tables, each proved against the
    definition it implements: the `.first()` scans of the invoice serializer,
    the two "largest number + 1" lookups, the series lookup of the cursor step,
    and the `disponibles` and `alertas` views. */
module Consultas {
  import opened Base
  import opened Colecciones
  import opened ComprobantesModelos
  import opened ComprobantesApi
  import opened FacturasModelos
  import opened BaseDatos

  /** `Comprobante.objects.filter(tipo, cliente null, factura null).first()`:
      a scan keeping the lowest free key. */
  method PrimerLibre(comps: map<nat, Comprobante>, tipo: nat) returns (r: Option<nat>)
    ensures r == PrimerDisponible(comps, tipo)
  {
    r := None;
    var pendientes := comps.Keys;
    while pendientes != {}
      invariant pendientes <= comps.Keys
      invariant r.Some? ==> r.value in comps && Disponible(comps[r.value], tipo)
      invariant forall k :: k in comps && k !in pendientes && Disponible(comps[k], tipo) ==>
                  r.Some? && r.value <= k
      decreases pendientes
    {
      var k :| k in pendientes;
      if Disponible(comps[k], tipo) && (r.None? || k < r.value) {
        r := Some(k);
      }
      pendientes := pendientes - {k};
    }
  }

  /** `Factura.objects.order_by('-numero_factura').first()` and the number
      derived from it: the largest stored number plus one, or 1 when there is
      none or it is 0. */
  method SiguienteNumeroFactura(fs: map<nat, Factura>) returns (n: int)
    ensures n == SiguienteNumero(fs)
  {
    var mayor: Option<int> := None;
    var pendientes := fs.Keys;
    while pendientes != {}
      invariant pendientes <= fs.Keys
      invariant mayor.Some? ==> mayor.value in Numeros(fs).Values
      invariant forall k :: k in fs && k !in pendientes && fs[k].numero.Some? ==>
                  mayor.Some? && fs[k].numero.value <= mayor.value
      invariant mayor.None? ==> forall k :: k in fs && k !in pendientes ==> fs[k].numero.None?
      decreases pendientes
    {
      var k :| k in pendientes;
      if fs[k].numero.Some? && (mayor.None? || fs[k].numero.value > mayor.value) {
        assert Numeros(fs)[k] == fs[k].numero.value;
        mayor := fs[k].numero;
      }
      pendientes := pendientes - {k};
    }
    n := if mayor.Some? && mayor.value != 0 then mayor.value + 1 else 1;
    ghost var v := Numeros(fs);
    if v.Keys != {} {
      ghost var m := MaxValor(v);
      ghost var j :| j in v && v[j] == mayor.value;
      ghost var i :| i in v && v[i] == m;
      assert mayor.value == m;
    }
  }

  /** `Cotizacion.objects.order_by('-numero_cotizacion').first()` plus one, or 1. */
  method SiguienteNumeroCotizacion(cs: map<nat, Cotizacion>) returns (n: int)
    ensures n == SiguienteCotizacion(cs)
  {
    var mayor: Option<int> := None;
    var pendientes := cs.Keys;
    while pendientes != {}
      invariant pendientes <= cs.Keys
      invariant mayor.Some? ==> exists k :: k in cs && cs[k].numero == mayor.value
      invariant forall k :: k in cs && k !in pendientes ==> mayor.Some? && cs[k].numero <= mayor.value
      invariant mayor.None? ==> pendientes == cs.Keys
      decreases pendientes
    {
      var k :| k in pendientes;
      if mayor.None? || cs[k].numero > mayor.value {
        mayor := Some(cs[k].numero);
      }
      pendientes := pendientes - {k};
    }
    n := if mayor.Some? then mayor.value + 1 else 1;
    if mayor.None? {
      assert cs.Keys == {};
    } else {
      ghost var s := SiguienteCotizacion(cs);
      ghost var i :| i in cs && cs[i].numero == s - 1;
      ghost var j :| j in cs && cs[j].numero == mayor.value;
    }
  }

  /** The series `_actualizar_numero_actual_serie` picks with `.first()`: the
      lowest key among the series of the type whose bounds enclose n. */
  method SerieQueContiene(series: map<nat, Serie>, tipo: nat, n: int) returns (r: Option<nat>)
    ensures r.None? <==> forall k :: k in series ==> !Contiene(series[k], tipo, n)
    ensures r.Some? ==> r.value in series && Contiene(series[r.value], tipo, n)
    ensures r.Some? ==> forall k :: k in series && Contiene(series[k], tipo, n) ==> r.value <= k
    ensures ActualizarNumeroActual(series, tipo, n)
         == if r.None? then series else series[r.value := series[r.value].(numeroActual := n)]
  {
    r := None;
    var pendientes := series.Keys;
    while pendientes != {}
      invariant pendientes <= series.Keys
      invariant r.Some? ==> r.value in series && Contiene(series[r.value], tipo, n)
      invariant forall k :: k in series && k !in pendientes && Contiene(series[k], tipo, n) ==>
                  r.Some? && r.value <= k
      decreases pendientes
    {
      var k :| k in pendientes;
      if Contiene(series[k], tipo, n) && (r.None? || k < r.value) {
        r := Some(k);
      }
      pendientes := pendientes - {k};
    }
    ghost var ks := set k | k in series && Contiene(series[k], tipo, n);
    assert forall k :: k in series && Contiene(series[k], tipo, n) ==> k in ks;
    if r.Some? {
      assert MinNat(ks) == r.value;
    }
  }

  /** Keys in ascending number order. */
  ghost predicate PorNumero(ids: seq<nat>, comps: map<nat, Comprobante>) {
    forall i, j :: 0 <= i < j < |ids| && ids[i] in comps && ids[j] in comps ==>
      comps[ids[i]].numero <= comps[ids[j]].numero
  }

  /** No key twice. */
  ghost predicate SinRepetir(ids: seq<nat>) {
    forall i, j :: 0 <= i < j < |ids| ==> ids[i] != ids[j]
  }

  /** One step of `order_by('numero_comprobante')`: insert a key before the
      first key with a larger number. */
  method Insertar(ids: seq<nat>, k: nat, comps: map<nat, Comprobante>) returns (r: seq<nat>)
    requires forall i :: 0 <= i < |ids| ==> ids[i] in comps
    requires k in comps && k !in ids
    requires PorNumero(ids, comps) && SinRepetir(ids)
    ensures forall x :: x in r <==> x in ids || x == k
    ensures forall i :: 0 <= i < |r| ==> r[i] in comps
    ensures PorNumero(r, comps) && SinRepetir(r)
  {
    var i := 0;
    while i < |ids| && comps[ids[i]].numero <= comps[k].numero
      invariant 0 <= i <= |ids|
      invariant forall j :: 0 <= j < i ==> comps[ids[j]].numero <= comps[k].numero
    {
      i := i + 1;
    }
    r := ids[..i] + [k] + ids[i..];
    assert forall j :: i <= j < |ids| ==> comps[k].numero < comps[ids[j]].numero;
    assert forall j :: 0 <= j < |r| ==> r[j] == (if j < i then ids[j] else if j == i then k else ids[j - 1]);
  }

  /** ComprobanteViewSet.disponibles (both variants): an error without the
      `tipo_comprobante` parameter; otherwise the free comprobantes of the type,
      each once, in ascending number. */
  method Disponibles(comps: map<nat, Comprobante>, tipo: Option<nat>) returns (r: Result<seq<nat>>)
    ensures tipo.None? <==> r.Err?
    ensures r.Err? ==> r.error == ParametroRequerido
    ensures r.Ok? ==> ListaDisponibles(r.value, comps, tipo.value)
  {
    if tipo.None? {
      return Err(ParametroRequerido);
    }
    var t := tipo.value;
    var ids: seq<nat> := [];
    var pendientes := comps.Keys;
    while pendientes != {}
      invariant pendientes <= comps.Keys
      invariant forall x :: x in ids ==> x in comps && Disponible(comps[x], t) && x !in pendientes
      invariant forall k :: k in comps && k !in pendientes && Disponible(comps[k], t) ==> k in ids
      invariant PorNumero(ids, comps) && SinRepetir(ids)
      decreases pendientes
    {
      var k :| k in pendientes;
      if Disponible(comps[k], t) {
        ids := Insertar(ids, k, comps);
      }
      pendientes := pendientes - {k};
    }
    return Ok(ids);
  }

  /** SerieComprobanteViewSet.alertas: `limite` from the query (default 5); one
      entry per watched series with at most `limite` numbers left, built from
      the model's predicates. The current variant skips voided series
      (`excluirAnuladas`), the older one does not. */
  method Alertas(series: map<nat, Serie>, tipos: map<nat, string>, param: Option<int>, excluirAnuladas: bool)
    returns (r: seq<Alerta>)
    requires forall k :: k in series ==> series[k].tipo in tipos
    ensures forall i :: 0 <= i < |r| ==>
              && r[i].id in series && EnAlerta(series[r[i].id], Limite(param), excluirAnuladas)
              && r[i] == AlertaDe(r[i].id, series[r[i].id], tipos[series[r[i].id].tipo], Limite(param))
    ensures forall k :: k in series && EnAlerta(series[k], Limite(param), excluirAnuladas) ==>
              exists i :: 0 <= i < |r| && r[i].id == k
    ensures forall i, j :: 0 <= i < j < |r| ==> r[i].id != r[j].id
  {
    var limite := Limite(param);
    r := [];
    var pendientes := series.Keys;
    while pendientes != {}
      invariant pendientes <= series.Keys
      invariant forall i :: 0 <= i < |r| ==>
                  && r[i].id in series && r[i].id !in pendientes && EnAlerta(series[r[i].id], limite, excluirAnuladas)
                  && r[i] == AlertaDe(r[i].id, series[r[i].id], tipos[series[r[i].id].tipo], limite)
      invariant forall k :: k in series && k !in pendientes && EnAlerta(series[k], limite, excluirAnuladas) ==>
                  exists i :: 0 <= i < |r| && r[i].id == k
      invariant forall i, j :: 0 <= i < j < |r| ==> r[i].id != r[j].id
      decreases pendientes
    {
      var k :| k in pendientes;
      var s := series[k];
      if Vigilada(s, excluirAnuladas) {
        var restantes := Restantes(s);
        if restantes <= limite {
          var previo := r;
          r := r + [AlertaDe(k, s, tipos[s.tipo], limite)];
          assert forall i :: 0 <= i < |previo| ==> r[i] == previo[i];
          assert r[|r| - 1].id == k;
        }
      }
      pendientes := pendientes - {k};
    }
  }
}
