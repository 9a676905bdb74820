/** The pure parts of the comprobante views (backend/comprobantes/api.py and the
    older ProyectoFacturacion/comprobantes/api.py): what `disponibles` answers,
    which records the void cascade of `anular` touches, and which series
    `alertas` reports and with which flags. */
module ComprobantesApi {
  import opened Base
  import opened ComprobantesModelos

  /** The answer of `disponibles` for a type, as a list of keys: every available
      comprobante of the type exactly once, in ascending number. Both variants
      filter the same way; neither looks at `anulado`. */
  ghost predicate ListaDisponibles(ids: seq<nat>, comps: map<nat, Comprobante>, tipo: nat) {
    && (forall i :: 0 <= i < |ids| ==> ids[i] in comps && Disponible(comps[ids[i]], tipo))
    && (forall k :: k in comps && Disponible(comps[k], tipo) ==> k in ids)
    && (forall i, j :: 0 <= i < j < |ids| ==> ids[i] != ids[j])
    && (forall i, j :: 0 <= i < j < |ids| && ids[i] in comps && ids[j] in comps ==>
          comps[ids[i]].numero <= comps[ids[j]].numero)
  }

  /** The filter of the void cascade: same type as the series, number inside
      [desde, hasta] (a missing bound counting as 0), no client, no invoice and
      not voided yet. */
  predicate ParaAnular(c: Comprobante, s: Serie) {
    && c.tipo == s.tipo
    && OrZero(s.desde) <= c.numero <= OrZero(s.hasta)
    && c.cliente.None? && c.factura.None?
    && !c.anulado
  }

  /** The keys the cascade's queryset selects; its `count()`. */
  function Marcados(comps: map<nat, Comprobante>, s: Serie): (m: set<nat>)
    ensures m <= comps.Keys
  {
    set k | k in comps && ParaAnular(comps[k], s)
  }

  /** The bulk `update(anulado=True)` over that queryset. */
  function AnularEnCascada(comps: map<nat, Comprobante>, s: Serie): (r: map<nat, Comprobante>)
    ensures r.Keys == comps.Keys
    ensures forall k :: k in comps ==> r[k] == comps[k].(anulado := r[k].anulado)
    ensures forall k :: k in comps ==> (r[k].anulado <==> comps[k].anulado || ParaAnular(comps[k], s))
  {
    map k | k in comps :: if ParaAnular(comps[k], s) then comps[k].(anulado := true) else comps[k]
  }

  /** The cascade changes exactly the selected records, and only their `anulado`
      flag; so the count it reports is the number of records it flipped. */
  lemma CascadaExacta(comps: map<nat, Comprobante>, s: Serie)
    ensures forall k :: k in comps ==>
              (AnularEnCascada(comps, s)[k] != comps[k] <==> k in Marcados(comps, s))
    ensures forall k :: k in Marcados(comps, s) ==>
              AnularEnCascada(comps, s)[k] == comps[k].(anulado := true)
    ensures Marcados(comps, s)
         == set k | k in comps && !comps[k].anulado && AnularEnCascada(comps, s)[k].anulado
    ensures |Marcados(comps, s)|
         == |set k | k in comps && AnularEnCascada(comps, s)[k] != comps[k]|
  {
    var r := AnularEnCascada(comps, s);
    var cambiados := set k | k in comps && r[k] != comps[k];
    assert Marcados(comps, s) == cambiados;
    assert cambiados == set k | k in comps && AnularEnCascada(comps, s)[k] != comps[k];
  }

  /** After the cascade nothing is left for a second one to select. */
  lemma CascadaAgota(comps: map<nat, Comprobante>, s: Serie)
    ensures Marcados(AnularEnCascada(comps, s), s) == {}
    ensures AnularEnCascada(AnularEnCascada(comps, s), s) == AnularEnCascada(comps, s)
  {
    var r := AnularEnCascada(comps, s);
    assert forall k :: k in r ==> !ParaAnular(r[k], s);
  }

  /** One entry of the `alertas` answer. */
  datatype Alerta = Alerta(
    id: nat,
    tipo: string,
    desde: int,
    hasta: int,
    numeroActual: int,
    restantes: nat,
    agotado: bool,
    porAgotarse: bool,
    fechaVencimiento: Fecha)

  /** `int(request.query_params.get('limite', 5))` for a numeric parameter. */
  function Limite(param: Option<int>): int {
    param.GetOr(LimitePorDefecto)
  }

  /** The queryset of `alertas`: both bounds set; the current variant also drops
      voided series, the older one does not. */
  predicate Vigilada(s: Serie, excluirAnuladas: bool) {
    s.desde.Some? && s.hasta.Some? && !(excluirAnuladas && s.anulado)
  }

  /** Whether a series appears in the answer for `limite`. */
  predicate EnAlerta(s: Serie, limite: int, excluirAnuladas: bool): (b: bool)
    ensures b ==> s.desde.Some? && s.hasta.Some? && (Agotado(s) || PorAgotarse(s, limite))
    ensures excluirAnuladas && s.anulado ==> !b
    ensures Vigilada(s, excluirAnuladas) && (Agotado(s) || PorAgotarse(s, limite)) && limite >= 0 ==> b
  {
    Vigilada(s, excluirAnuladas) && Restantes(s) <= limite
  }

  /** The entry built for a reported series: its fields echoed and the flags
      copied from the model's predicates, evaluated with the same limit. */
  function AlertaDe(id: nat, s: Serie, codigo: string, limite: int): (a: Alerta)
    requires s.desde.Some? && s.hasta.Some?
    ensures a.id == id && a.desde == s.desde.value && a.hasta == s.hasta.value
    ensures a.numeroActual == s.numeroActual && a.restantes == Restantes(s)
    ensures a.agotado <==> Agotado(s)
    ensures a.porAgotarse <==> PorAgotarse(s, limite)
  {
    Alerta(id, codigo, s.desde.value, s.hasta.value, s.numeroActual, Restantes(s),
           Agotado(s), PorAgotarse(s, limite), s.fechaVencimiento)
  }

  /** Every reported series carries exactly one of the two flags: it is either
      exhausted or about to run out for the limit it was reported under. */
  lemma AlertaClasificada(id: nat, s: Serie, codigo: string, limite: int, excluirAnuladas: bool)
    requires EnAlerta(s, limite, excluirAnuladas)
    ensures AlertaDe(id, s, codigo, limite).agotado != AlertaDe(id, s, codigo, limite).porAgotarse
  {
  }

  /** The older view reports every series the current one reports; the two
      differ exactly on voided series. */
  lemma AlertasLegacyIncluyen(s: Serie, limite: int)
    ensures EnAlerta(s, limite, true) ==> EnAlerta(s, limite, false)
    ensures EnAlerta(s, limite, false) && !EnAlerta(s, limite, true) <==> EnAlerta(s, limite, false) && s.anulado
  {
  }
}
