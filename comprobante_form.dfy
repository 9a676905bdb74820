/** The state of the series form (frontend/src/hooks/useComprobanteForm.js): a
    JSON object held in React state. A new series gets a proposed
    `numero_actual` one above the largest cursor among the existing series; an
    edited series is loaded as the API sends it, with three keys defaulted;
    every input writes one key. */
module ComprobanteForm {
  import opened Base
  import opened Texto

  /** A JSON value of the form object. */
  datatype Valor = Nulo | Cadena(s: string) | Numero(n: int) | Booleano(b: bool)

  /** JavaScript truthiness: null, '', 0 and false are false. */
  predicate Verdadero(v: Valor) {
    match v
    case Nulo => false
    case Cadena(s) => s != []
    case Numero(n) => n != 0
    case Booleano(b) => b
  }

  /** `x || d`. */
  function OSi(v: Valor, d: Valor): (r: Valor)
    ensures Verdadero(v) ==> r == v
    ensures !Verdadero(v) ==> r == d
  {
    if Verdadero(v) then v else d
  }

  /** `obj.key`, an absent key reading as null (`undefined`, as falsy). */
  function Campo(m: map<string, Valor>, k: string): Valor {
    if k in m then m[k] else Nulo
  }

  /** `parseInt(v) || 0`: a number reads as itself, a text as the integer it
      spells, anything else (NaN) as 0. */
  function Entero(v: Valor): (r: int)
    ensures v.Numero? ==> r == v.n
    ensures v.Nulo? || v.Booleano? ==> r == 0
    ensures v.Cadena? && ParseInt(v.s).None? ==> r == 0
  {
    match v
    case Numero(n) => n
    case Cadena(s) => ParseInt(s).GetOr(0)
    case _ => 0
  }

  /** The text of a number reads back as that number. */
  lemma EnteroDeTexto(n: int)
    ensures Entero(Cadena(IntToString(n))) == n
  {
    ZFillRoundTrip(n, 0);
  }

  /** `Math.max(...xs)` of a non-empty list. */
  function Maximo(xs: seq<int>): (m: int)
    requires |xs| > 0
    ensures m in xs
    ensures forall i :: 0 <= i < |xs| ==> xs[i] <= m
  {
    if |xs| == 1 then xs[0]
    else
      var m := Maximo(xs[1..]);
      assert forall i :: 1 <= i < |xs| ==> xs[i] == xs[1..][i - 1];
      if xs[0] > m then xs[0] else m
  }

  /** The parsed cursors of the series the API listed. */
  function Numeros(series: seq<map<string, Valor>>): seq<int> {
    seq(|series|, i requires 0 <= i < |series| => Entero(Campo(series[i], "numero_actual")))
  }

  /** The proposed `numero_actual` of a new series: the largest parsed cursor
      plus one, 1 when there is no series. It lies above every cursor, and is
      one above one of them. */
  function ProponerNumeroActual(series: seq<map<string, Valor>>): (n: int)
    ensures |series| == 0 ==> n == 1
    ensures forall i :: 0 <= i < |series| ==> Entero(Campo(series[i], "numero_actual")) < n
    ensures |series| > 0 ==> exists i :: 0 <= i < |series| && n == Entero(Campo(series[i], "numero_actual")) + 1
  {
    var numeros := Numeros(series);
    assert forall i :: 0 <= i < |series| ==> numeros[i] == Entero(Campo(series[i], "numero_actual"));
    var ultimo := if |numeros| > 0 then Maximo(numeros) else 0;
    ultimo + 1
  }

  const CampoFecha: string := "fecha_vencimiento"
  const CampoGenerados: string := "tiene_comprobantes_generados"
  const CampoAnulado: string := "anulado"
  const CampoNumero: string := "numero_actual"

  /** The state before anything is loaded. */
  const EstadoInicial: map<string, Valor> := map[
    "tipo_comprobante" := Cadena(""),
    "desde" := Numero(1),
    "hasta" := Numero(100),
    CampoNumero := Numero(1),
    CampoFecha := Cadena(""),
    CampoGenerados := Booleano(false),
    CampoAnulado := Booleano(false)]

  /** Edit mode: the series as the API sent it, with an empty date and false
      flags in place of missing or falsy ones. Nothing of the previous state
      survives; the cursor is the stored one. */
  function Edicion(datos: map<string, Valor>): (m: map<string, Valor>)
    ensures m.Keys == datos.Keys + {CampoFecha, CampoGenerados, CampoAnulado}
    ensures forall k :: k in datos && k != CampoFecha && k != CampoGenerados && k != CampoAnulado ==>
              m[k] == datos[k]
    ensures CampoNumero in datos ==> m[CampoNumero] == datos[CampoNumero]
    ensures !Verdadero(Campo(datos, CampoAnulado)) ==> m[CampoAnulado] == Booleano(false)
    ensures !Verdadero(Campo(datos, CampoGenerados)) ==> m[CampoGenerados] == Booleano(false)
    ensures !Verdadero(Campo(datos, CampoFecha)) ==> m[CampoFecha] == Cadena("")
    ensures forall k :: k in datos && Verdadero(datos[k]) ==> m[k] == datos[k]
  {
    datos[CampoFecha := OSi(Campo(datos, CampoFecha), Cadena(""))]
         [CampoGenerados := OSi(Campo(datos, CampoGenerados), Booleano(false))]
         [CampoAnulado := OSi(Campo(datos, CampoAnulado), Booleano(false))]
  }

  /** Loading the loaded object again changes nothing: the defaults are fixed
      points of their own rule. */
  lemma EdicionIdempotente(datos: map<string, Valor>)
    ensures Edicion(Edicion(datos)) == Edicion(datos)
  {
    var m := Edicion(datos);
    assert Edicion(m).Keys == m.Keys;
    forall k | k in m
      ensures Edicion(m)[k] == m[k]
    {
    }
  }

  /** The form's state object. */
  class SerieForm {
    var serie: map<string, Valor>

    constructor()
      ensures serie == EstadoInicial
    {
      serie := EstadoInicial;
    }

    /** The load effect once the API answered: the edited series, or the
        proposal for a new one written over the previous state. */
    method Cargar(esEdicion: bool, datos: map<string, Valor>, series: seq<map<string, Valor>>)
      modifies this
      ensures esEdicion ==> serie == Edicion(datos)
      ensures !esEdicion ==> serie == old(serie)[CampoNumero := Numero(ProponerNumeroActual(series))]
    {
      if esEdicion {
        serie := Edicion(datos);
      } else {
        var numeros := Numeros(series);
        var ultimo := if |numeros| > 0 then Maximo(numeros) else 0;
        serie := serie[CampoNumero := Numero(ultimo + 1)];
      }
    }

    /** handleInputChange(field, value): that key takes the value, every other
        key keeps its own. */
    method HandleInputChange(campo: string, valor: Valor)
      modifies this
      ensures serie == old(serie)[campo := valor]
      ensures serie.Keys == old(serie).Keys + {campo} && serie[campo] == valor
      ensures forall k :: k in old(serie) && k != campo ==> serie[k] == old(serie)[k]
    {
      serie := serie[campo := valor];
    }
  }
}
