/** The client-side table of invoice states (frontend/src/config/facturaConfig.js):
    the five states with their `editable` flag, the two filtered lists, and the
    check the invoice screens use before allowing an edit. The server does not
    enforce it: this table is the only place where editability is decided. */
module FacturaConfig {
  import opened Base
  import opened FacturasModelos

  /** One entry of ESTADOS_FACTURA. */
  datatype EstadoConfig = EstadoConfig(valor: string, etiqueta: string, editable: bool)

  /** ESTADOS_FACTURA, in the order of the file. */
  const EstadosFactura: seq<EstadoConfig> := [
    EstadoConfig("Borrador", "Borrador", true),
    EstadoConfig("Pendiente", "Pendiente", true),
    EstadoConfig("Activa", "Activa", false),
    EstadoConfig("Pagada", "Pagada", false),
    EstadoConfig("Anulada", "Anulada", false)
  ]

  /** `xs.filter(e => e.editable == editable)`: the entries with that flag, in
      their original order. */
  function Filtrar(xs: seq<EstadoConfig>, editable: bool): (r: seq<EstadoConfig>)
    ensures |r| <= |xs|
    ensures forall i :: 0 <= i < |r| ==> r[i].editable == editable
  {
    if xs == [] then []
    else (if xs[0].editable == editable then [xs[0]] else []) + Filtrar(xs[1..], editable)
  }

  /** ESTADOS_EDITABLES. */
  function EstadosEditables(): seq<EstadoConfig> {
    Filtrar(EstadosFactura, true)
  }

  /** ESTADOS_NO_EDITABLES. */
  function EstadosNoEditables(): seq<EstadoConfig> {
    Filtrar(EstadosFactura, false)
  }

  /** `xs.find(e => e.value === v)`: the first entry with that value. */
  function Buscar(xs: seq<EstadoConfig>, v: string): (r: Option<EstadoConfig>)
    ensures r.None? <==> forall i :: 0 <= i < |xs| ==> xs[i].valor != v
    ensures r.Some? ==> exists i :: 0 <= i < |xs| && xs[i] == r.value && r.value.valor == v &&
                          forall j :: 0 <= j < i ==> xs[j].valor != v
  {
    if xs == [] then None
    else if xs[0].valor == v then Some(xs[0])
    else
      var r := Buscar(xs[1..], v);
      assert forall i :: 1 <= i < |xs| ==> xs[i] == xs[1..][i - 1];
      r
  }

  /** esEstadoEditable: the flag of the entry with that value, false when no
      entry has it. Exactly Borrador and Pendiente are editable. */
  function EsEstadoEditable(estado: string): (b: bool)
    ensures b <==> estado == "Borrador" || estado == "Pendiente"
  {
    var e := Buscar(EstadosFactura, estado);
    e.Some? && e.value.editable
  }

  /** `a` is `b` with some entries removed, the rest kept in order. */
  predicate Subsecuencia(a: seq<EstadoConfig>, b: seq<EstadoConfig>)
    decreases |b|
  {
    if a == [] then true
    else if b == [] then false
    else if a[0] == b[0] then Subsecuencia(a[1..], b[1..])
    else Subsecuencia(a, b[1..])
  }

  /** A filter keeps the order of the list it filters. */
  lemma {:induction false} FiltrarEnOrden(xs: seq<EstadoConfig>, editable: bool)
    ensures Subsecuencia(Filtrar(xs, editable), xs)
    decreases |xs|
  {
    if xs != [] {
      var resto := Filtrar(xs[1..], editable);
      FiltrarEnOrden(xs[1..], editable);
      if xs[0].editable == editable {
        assert Filtrar(xs, editable) == [xs[0]] + resto;
        assert ([xs[0]] + resto)[1..] == resto;
      } else {
        assert Filtrar(xs, editable) == resto;
        assert resto != [] ==> resto[0] != xs[0];
      }
    }
  }

  /** The two filters split the list: together they hold each entry exactly as
      many times as the list does. */
  lemma {:induction false} FiltrarParticion(xs: seq<EstadoConfig>)
    ensures multiset(Filtrar(xs, true)) + multiset(Filtrar(xs, false)) == multiset(xs)
    ensures |Filtrar(xs, true)| + |Filtrar(xs, false)| == |xs|
    decreases |xs|
  {
    if xs != [] {
      var si, no := Filtrar(xs[1..], true), Filtrar(xs[1..], false);
      FiltrarParticion(xs[1..]);
      assert multiset(xs) == multiset{xs[0]} + multiset(xs[1..]) by {
        assert xs == [xs[0]] + xs[1..];
      }
      if xs[0].editable {
        assert Filtrar(xs, true) == [xs[0]] + si && Filtrar(xs, false) == no;
        assert multiset([xs[0]] + si) == multiset{xs[0]} + multiset(si);
      } else {
        assert Filtrar(xs, true) == si && Filtrar(xs, false) == [xs[0]] + no;
        assert multiset([xs[0]] + no) == multiset{xs[0]} + multiset(no);
      }
    }
  }

  /** ESTADOS_EDITABLES and ESTADOS_NO_EDITABLES partition ESTADOS_FACTURA,
      each in the order of the table. */
  lemma ListasParticion()
    ensures Subsecuencia(EstadosEditables(), EstadosFactura)
    ensures Subsecuencia(EstadosNoEditables(), EstadosFactura)
    ensures multiset(EstadosEditables()) + multiset(EstadosNoEditables()) == multiset(EstadosFactura)
    ensures forall e :: e in EstadosEditables() ==> e.editable
    ensures forall e :: e in EstadosNoEditables() ==> !e.editable
  {
    FiltrarEnOrden(EstadosFactura, true);
    FiltrarEnOrden(EstadosFactura, false);
    FiltrarParticion(EstadosFactura);
  }

  /** The backend's choices, in the order of EstadoFactura. */
  const Estados: seq<EstadoFactura> := [Borrador, Pendiente, Activa, Pagada, Anulada]

  /** The table names the backend's five states, in the same order, each once,
      with its stored text as valor and etiqueta. */
  lemma EstadosCoinciden()
    ensures |EstadosFactura| == |Estados|
    ensures forall i :: 0 <= i < |Estados| ==>
              EstadosFactura[i].valor == Estados[i].Valor() && EstadosFactura[i].etiqueta == EstadosFactura[i].valor
    ensures forall i, j :: 0 <= i < j < |EstadosFactura| ==> EstadosFactura[i].valor != EstadosFactura[j].valor
  {
  }

  /** On the backend's states the client check allows editing exactly Borrador
      and Pendiente; any other text, not naming a backend state, is not editable. */
  lemma EditableSegunEstado(e: EstadoFactura, v: string)
    ensures EsEstadoEditable(e.Valor()) <==> e == Borrador || e == Pendiente
    ensures EstadoDesde(v).None? ==> !EsEstadoEditable(v)
  {
  }

  /** esEstadoEditable agrees with the two lists: a text is editable iff it is
      the value of an entry of ESTADOS_EDITABLES, and the values of
      ESTADOS_NO_EDITABLES are all refused. */
  lemma EditableSegunListas(v: string)
    ensures EsEstadoEditable(v) <==> exists e :: e in EstadosEditables() && e.valor == v
    ensures (exists e :: e in EstadosNoEditables() && e.valor == v) ==> !EsEstadoEditable(v)
  {
    ListasConcretas();
    if EsEstadoEditable(v) {
      var e := if v == "Borrador" then EstadosFactura[0] else EstadosFactura[1];
      assert e in EstadosEditables() && e.valor == v;
    }
  }

  /** The two lists as the table gives them. */
  lemma ListasConcretas()
    ensures EstadosEditables() == [EstadosFactura[0], EstadosFactura[1]]
    ensures EstadosNoEditables() == [EstadosFactura[2], EstadosFactura[3], EstadosFactura[4]]
  {
    var xs := EstadosFactura;
    assert xs[4..][1..] == [];
    assert Filtrar(xs[4..], true) == [] && Filtrar(xs[4..], false) == [xs[4]];
    assert xs[3..][1..] == xs[4..];
    assert Filtrar(xs[3..], true) == [] && Filtrar(xs[3..], false) == [xs[3], xs[4]];
    assert xs[2..][1..] == xs[3..];
    assert Filtrar(xs[2..], true) == [] && Filtrar(xs[2..], false) == [xs[2], xs[3], xs[4]];
    assert xs[1..][1..] == xs[2..];
    assert Filtrar(xs[1..], true) == [xs[1]] && Filtrar(xs[1..], false) == [xs[2], xs[3], xs[4]];
  }
}
