/** The rows of the series list screen
    (frontend/src/pages/Comprobantes/ComprobantesList.jsx): `dataFiltrada` maps
    each series the API returned to a row with its range text, its type text,
    the numbers left and a status label. */
module ComprobantesLista {
  import opened Base
  import opened Texto
  import opened ComprobantesModelos

  /** The nested `tipo_comprobante` object the serializer sends. */
  datatype TipoVista = TipoVista(codigo: string, descripcion: string)

  /** A series as the screen receives it. */
  datatype SerieVista = SerieVista(
    id: nat,
    desde: Option<int>,
    hasta: Option<int>,
    numeroActual: int,
    tipo: Option<TipoVista>)

  /** One row of the table. */
  datatype Fila = Fila(
    id: nat,
    rango: string,
    tipo: string,
    numeroActual: int,
    restantes: int,
    estado: string)

  const EtiquetaAgotado: string := "Agotado"
  const EtiquetaPorAgotarse: string := "Por agotarse"
  const EtiquetaDisponible: string := "Disponible"

  /** The threshold the screen hard-codes for "about to run out". */
  const LimitePantalla: int := 5

  /** `serie.hasta && serie.desde ? Math.max(0, serie.hasta - serie.numero_actual) : 0`. */
  function RestantesVista(v: SerieVista): (r: int)
    ensures r >= 0
    ensures !Truthy(v.desde) || !Truthy(v.hasta) ==> r == 0
    ensures r > 0 ==> v.numeroActual + r == v.hasta.value
  {
    if Truthy(v.hasta) && Truthy(v.desde) then
      if v.hasta.value - v.numeroActual > 0 then v.hasta.value - v.numeroActual else 0
    else 0
  }

  /** The status label: `Agotado` when nothing is left, `Por agotarse` for 1 to
      5 left, `Disponible` above. */
  function Etiqueta(restantes: int): (r: string)
    ensures restantes == 0 ==> r == EtiquetaAgotado
    ensures 0 < restantes <= LimitePantalla ==> r == EtiquetaPorAgotarse
    ensures restantes > LimitePantalla ==> r == EtiquetaDisponible
  {
    var porAgotarse := restantes <= LimitePantalla && restantes > 0;
    var agotado := restantes == 0;
    if agotado then EtiquetaAgotado else if porAgotarse then EtiquetaPorAgotarse else EtiquetaDisponible
  }

  /** `${x || 'N/A'}`. */
  function TextoLimite(o: Option<int>): string {
    if Truthy(o) then IntToString(o.value) else "N/A"
  }

  /** `${tipo.tipo_comprobante} - ${tipo.descripcion}`, or `Sin tipo`. */
  function TextoTipo(t: Option<TipoVista>): string {
    if t.Some? then t.value.codigo + " - " + t.value.descripcion else "Sin tipo"
  }

  /** The row of one series. */
  function FilaDe(v: SerieVista): (f: Fila)
    ensures f.id == v.id && f.numeroActual == v.numeroActual
    ensures f.restantes >= 0 && f.restantes == RestantesVista(v) && f.estado == Etiqueta(f.restantes)
    ensures f.rango == TextoLimite(v.desde) + " - " + TextoLimite(v.hasta) && f.tipo == TextoTipo(v.tipo)
  {
    var restantes := RestantesVista(v);
    Fila(v.id, TextoLimite(v.desde) + " - " + TextoLimite(v.hasta), TextoTipo(v.tipo),
         v.numeroActual, restantes, Etiqueta(restantes))
  }

  /** `seriesComprobante.map(...)`: one row per series, same ids, same order. */
  function DataFiltrada(series: seq<SerieVista>): (filas: seq<Fila>)
    ensures |filas| == |series|
    ensures forall i :: 0 <= i < |series| ==> filas[i].id == series[i].id && filas[i].restantes >= 0
  {
    seq(|series|, i requires 0 <= i < |series| => FilaDe(series[i]))
  }

  /** Each row gets exactly one of the three labels, chosen by its count:
      Agotado iff none left, Por agotarse iff 1 to 5 left, Disponible iff more. */
  lemma EtiquetaUnica(restantes: int)
    requires restantes >= 0
    ensures Etiqueta(restantes) == EtiquetaAgotado <==> restantes == 0
    ensures Etiqueta(restantes) == EtiquetaPorAgotarse <==> 0 < restantes <= LimitePantalla
    ensures Etiqueta(restantes) == EtiquetaDisponible <==> restantes > LimitePantalla
  {
    assert EtiquetaAgotado != EtiquetaPorAgotarse && EtiquetaAgotado != EtiquetaDisponible
        && EtiquetaPorAgotarse != EtiquetaDisponible by {
      assert EtiquetaAgotado[0] != EtiquetaPorAgotarse[0] && EtiquetaAgotado[0] != EtiquetaDisponible[0]
          && EtiquetaPorAgotarse[0] != EtiquetaDisponible[0];
    }
  }

  /** What the screen receives for a stored series: its key, its bounds and
      cursor, and its type rendered. */
  function VistaDe(id: nat, s: Serie, tipo: Option<TipoVista>): (v: SerieVista)
    ensures v.id == id && v.desde == s.desde && v.hasta == s.hasta && v.numeroActual == s.numeroActual
  {
    SerieVista(id, s.desde, s.hasta, s.numeroActual, tipo)
  }

  /** The screen's rule agrees with the model: the count is
      comprobantes_restantes, Agotado is esta_agotado and Por agotarse is
      esta_por_agotarse(5). */
  lemma FilaSegunModelo(id: nat, s: Serie, tipo: Option<TipoVista>)
    ensures FilaDe(VistaDe(id, s, tipo)).restantes == Restantes(s)
    ensures FilaDe(VistaDe(id, s, tipo)).estado == EtiquetaAgotado <==> Agotado(s)
    ensures FilaDe(VistaDe(id, s, tipo)).estado == EtiquetaPorAgotarse <==> PorAgotarse(s, LimitePorDefecto)
    ensures FilaDe(VistaDe(id, s, tipo)).estado == EtiquetaDisponible <==>
              !Agotado(s) && !PorAgotarse(s, LimitePorDefecto)
  {
    var v := VistaDe(id, s, tipo);
    assert RestantesVista(v) == Restantes(s);
    EtiquetaUnica(Restantes(s));
  }

  /** Row by row, the table of a list of stored series carries their
      remaining counts and labels as the model defines them. */
  lemma DataFiltradaSegunModelo(ids: seq<nat>, ss: seq<Serie>, tipos: seq<Option<TipoVista>>)
    requires |ids| == |ss| == |tipos|
    ensures var filas := DataFiltrada(seq(|ss|, i requires 0 <= i < |ss| => VistaDe(ids[i], ss[i], tipos[i])));
      forall i :: 0 <= i < |ss| ==>
        && filas[i].id == ids[i]
        && filas[i].restantes == Restantes(ss[i])
        && (filas[i].estado == EtiquetaAgotado <==> Agotado(ss[i]))
        && (filas[i].estado == EtiquetaPorAgotarse <==> PorAgotarse(ss[i], LimitePorDefecto))
  {
    forall i | 0 <= i < |ss|
      ensures FilaDe(VistaDe(ids[i], ss[i], tipos[i])).restantes == Restantes(ss[i])
      ensures FilaDe(VistaDe(ids[i], ss[i], tipos[i])).estado == EtiquetaAgotado <==> Agotado(ss[i])
      ensures FilaDe(VistaDe(ids[i], ss[i], tipos[i])).estado == EtiquetaPorAgotarse <==>
                PorAgotarse(ss[i], LimitePorDefecto)
    {
      FilaSegunModelo(ids[i], ss[i], tipos[i]);
    }
  }
}
