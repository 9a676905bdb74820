# NCF bookkeeping of a Dominican billing application, in Dafny

This project models the fiscal-number core of a Django + React billing
application. An NCF (número de comprobante fiscal) is the tax authority's
tracking number that must appear on every issued invoice.

The model covers:

- **Series.** An administrator declares a series (`SerieComprobante`) for a
  document type (`TipoComprobante`), with a range `desde..hasta` and a cursor
  `numero_actual`. Creating a series generates one `Comprobante` per number
  of the range. Each comprobante carries its formatted NCF text.
- **Activation.** When an invoice (`Factura`) is created as, or switched to,
  `Activa`, it takes the next invoice number and the first free comprobante
  of its type. The comprobante is then linked back to the invoice and the
  containing series' cursor moves.
- **Voiding.** A series can be voided. The void cascades to its free
  comprobantes.
- **Alerts.** A view reports the series that are running out.
- **Quotes.** Each quote (`Cotizacion`) takes the next quote number.
- **Client side.** The table of invoice states with their editability, the
  rows of the series list, and the state of the series form.

Both variants of the backend are modelled where they differ:

- the current one, under `backend/`;
- the older one, under `ProyectoFacturacion/`. Its members carry `Legacy` in
  their names.

Modules, leaf first:

- `base.dfy` (Base): Option, Result, the error cases, Python truthiness of a nullable integer.
- `colecciones.dfy` (Colecciones): minimum key and maximum value: the meaning of `.first()` and `order_by('-x').first()`.
- `texto.dfy` (Texto): `str(n)`, `s.zfill(w)`, `int(s)` and their round trip.
- `comprobantes_modelos.dfy` (ComprobantesModelos): the series and comprobante records, `comprobantes_restantes` and the two status predicates.
- `comprobantes_serializers.dfy` (ComprobantesSerializers): the NCF text, `validate` (both variants), the pool of comprobantes a series generates.
- `comprobantes_api.dfy` (ComprobantesApi): what `disponibles` answers, the void cascade, the alert entries.
- `facturas_modelos.dfy` (FacturasModelos): the invoice states, invoices and quotes, the next-number rules, `Factura.clean`.
- `base_datos.dfy` (BaseDatos): all tables as one value (`Db`), its integrity invariant, and each request as a function from the tables before to the answer and the tables after.
- `propiedades_series.dfy` (PropiedadesSeries): what the series requests preserve and write.
- `propiedades_facturas.dfy` (PropiedadesFacturas): what the invoice and quote requests preserve and write.
- `consultas.dfy` (Consultas): the queries as loops over the tables, each proved against the definition it implements.
- `almacen.dfy` (Almacen): `Store`, a class holding the tables as fields; each method performs one request step by step and is proved to produce exactly the tables and answer of the request's function, keeping the invariant.
- `factura_config.dfy` (FacturaConfig): `ESTADOS_FACTURA`, the two filtered lists, `esEstadoEditable`.
- `comprobantes_lista.dfy` (ComprobantesLista): the `dataFiltrada` rows of the series list.
- `comprobante_form.dfy` (ComprobanteForm): the series form: the proposed `numero_actual`, edit-mode loading, `handleInputChange`.

Nothing is executed: the guarantees below are what the verifier proves about
the model.

## Model

| member | source | states |
|---|---|---|
| Colecciones.MinNat | ProyectoFacturacion/facturas/serializers.py:42-46 | the lowest element of a non-empty key set: the row `.first()` returns from an unordered queryset |
| Colecciones.MaxValor | ProyectoFacturacion/facturas/serializers.py:33 | a value of the map that no other value exceeds: the row `order_by('-numero').first()` returns |
| Colecciones.IntervaloCardinal | backend/comprobantes/serializers.py:106 | `range(desde, hasta + 1)` holds exactly `hasta - desde + 1` numbers, or none when `hasta < desde` |
| Texto.Decimal | backend/comprobantes/serializers.py:110 | `str(n)` of a natural: non-empty, decimal digits only, no leading zero |
| Texto.IntToString | backend/comprobantes/serializers.py:110 | `str(n)` starts with '-' exactly when n is negative, and the rest is digits |
| Texto.ZFill | backend/comprobantes/serializers.py:110 | `zfill` never truncates: the result has the larger of the text's length and the width |
| Texto.ZFillForma | backend/comprobantes/serializers.py:110 | the sign stays first, zeros fill the middle, the original digits end the text unchanged |
| Texto.ValorDecimalDeDecimal | backend/comprobantes/serializers.py:110 | reading the digits of `str(n)` gives n back |
| Texto.ZFillRoundTrip | backend/comprobantes/serializers.py:110 | `int(str(n).zfill(w)) == n` for every integer n and width w |
| ComprobantesModelos.Restantes | backend/comprobantes/models.py:61-65 | never negative; 0 when `desde` or `hasta` is unset or 0; when positive, cursor plus count is `hasta`; positive whenever both bounds are set and the cursor is below `hasta` |
| ComprobantesModelos.RestantesMonotono | backend/comprobantes/models.py:61-65 | moving the cursor forward never increases the remaining count |
| ComprobantesModelos.AgotadoExcluyePorAgotarse | backend/comprobantes/models.py:67-73 | no series is both `esta_agotado` and `esta_por_agotarse(limite)`, for any limit |
| ComprobantesModelos.PorAgotarse | backend/comprobantes/models.py:61-69 | about to run out iff both bounds are truthy and the cursor is below `hasta` by at most `limite` |
| ComprobantesModelos.Agotado | backend/comprobantes/models.py:61-73 | exhausted iff a bound is unset or 0, or the cursor has reached `hasta` |
| ComprobantesModelos.Disponible | ProyectoFacturacion/facturas/serializers.py:42-46 | a free comprobante has the requested type; one held by a client or an invoice is never free |
| ComprobantesSerializers.FormatNcfRoundTrip | backend/comprobantes/serializers.py:108-111 | the NCF text starts with the type code, has the padded width unless the number is too wide, and its tail reads back as the number |
| ComprobantesSerializers.FormatNcfInyectivo | backend/comprobantes/serializers.py:108-111 | two numbers of one type never share an NCF text |
| ComprobantesSerializers.FormatNcf | backend/comprobantes/serializers.py:108-111 | the NCF text starts with the type code and is never shorter than the width |
| ComprobantesSerializers.TieneComprobantesGenerados | backend/comprobantes/serializers.py:61-69 | false for an unsaved series; true only if some comprobante of the series' type exists |
| ComprobantesSerializers.SerieDe | backend/comprobantes/serializers.py:103 | a created series stores the request's type, bounds, cursor and date, and starts not voided |
| ComprobantesSerializers.Aplicar | backend/comprobantes/serializers.py:51 | an update replaces exactly the keys the request carries; `anulado`, read-only, never changes |
| ComprobantesSerializers.ValidarSerie | backend/comprobantes/serializers.py:71-97 | fails with the range error iff both bounds are truthy and `desde >= hasta`; otherwise fails with the lock error iff it is an update of a series with comprobantes in its range and the request sends a key other than `fecha_vencimiento`/`numero_actual`; no other outcome |
| ComprobantesSerializers.ValidarSerieLegacy | ProyectoFacturacion/comprobantes/serializers.py:44-49 | accepts iff the range check passes; its only error is the range error |
| ComprobantesSerializers.BloqueoDeCampos | backend/comprobantes/serializers.py:78-95 | a series with comprobantes in its range accepts an update iff the request touches only the two modifiable fields |
| ComprobantesSerializers.LegacySinBloqueo | ProyectoFacturacion/comprobantes/serializers.py:44-49 | both variants decide creations alike; on updates the older one accepts everything the current one accepts |
| ComprobantesSerializers.Generado | backend/comprobantes/serializers.py:114-121 | a generated comprobante has the series' type, its number, the NCF text of that number, no client, no invoice, and is not voided |
| ComprobantesSerializers.Pool | backend/comprobantes/serializers.py:106-121 | the generation loop creates records under exactly the next `cantidad` keys |
| ComprobantesSerializers.PoolTamano | backend/comprobantes/serializers.py:106-121 | the loop creates exactly one record per number of the range |
| ComprobantesSerializers.PoolElementos | backend/comprobantes/serializers.py:106-121 | the record under the i-th new key is the one for `desde + i` |
| ComprobantesSerializers.PrimerFallido | ProyectoFacturacion/comprobantes/serializers.py:58-72 | the first number of the range whose comprobante is rejected; none before it is rejected; none at all iff the whole range passes |
| ComprobantesApi.CascadaExacta | backend/comprobantes/api.py:69-79 | the bulk update changes exactly the selected comprobantes, and only their `anulado`; the reported count equals the number of comprobantes it flipped |
| ComprobantesApi.CascadaAgota | backend/comprobantes/api.py:69-79 | after the cascade nothing is left to select; running it again changes nothing |
| ComprobantesApi.AnularEnCascada | backend/comprobantes/api.py:69-79 | keeps every key; changes at most the `anulado` flag; a record ends voided iff it was voided or the filter selects it |
| ComprobantesApi.EnAlerta | backend/comprobantes/api.py:99-108 | a reported series has both bounds and is exhausted or about to run out; the current view never reports a voided series; every watched series that is exhausted or about to run out (for a non-negative limit) is reported |
| ComprobantesApi.AlertaDe | backend/comprobantes/api.py:109-119 | an alert echoes the series' fields; its count is `comprobantes_restantes`; its flags are the model's two predicates under the same limit |
| ComprobantesApi.AlertaClasificada | backend/comprobantes/api.py:106-117 | every reported series is exactly one of exhausted or about to run out |
| ComprobantesApi.AlertasLegacyIncluyen | ProyectoFacturacion/comprobantes/api.py:56-59 | the older view reports a superset of the current one, differing exactly on voided series |
| FacturasModelos.EstadoDesde | backend/facturas/models.py:7-12 | a stored text maps to the state whose value it is |
| FacturasModelos.EstadoRoundTrip | backend/facturas/models.py:7-12 | every state reads back from its text, and distinct states have distinct texts |
| FacturasModelos.SiguienteNumero | ProyectoFacturacion/facturas/serializers.py:33-37 | the next invoice number exceeds every stored number; it is 1 when no invoice has a number; otherwise it is 1 or one above a stored number |
| FacturasModelos.NumeroNuevoUnico | backend/facturas/models.py:15 | giving one invoice the next number keeps `numero_factura` unique |
| FacturasModelos.NumeroIgualUnico | backend/facturas/models.py:15 | a write that keeps or clears an invoice's number keeps `numero_factura` unique |
| FacturasModelos.SiguienteCotizacion | ProyectoFacturacion/facturas/serializers.py:205-209 | the next quote number exceeds every stored one; 1 with no quotes; otherwise one above a stored number |
| FacturasModelos.Clean | backend/facturas/models.py:27-42 | rejects iff the invoice is Activa, has no NCF, and no comprobante of its type is free; the error is the no-comprobante error |
| BaseDatos.PrimerDisponible | ProyectoFacturacion/facturas/serializers.py:42-46 | none iff no comprobante of the type is free; otherwise a free one, with the lowest key among them |
| BaseDatos.ActualizarNumeroActual | ProyectoFacturacion/facturas/serializers.py:161-177 | the series keys are kept and each series is unchanged or only has its cursor set to the used number |
| BaseDatos.CrearSerie | backend/comprobantes/serializers.py:99-123 | a failed creation writes nothing; a successful one answers the next series key and stores the request's series there; invoices and quotes never change, and no comprobante disappears |
| BaseDatos.CrearSerieLegacy | ProyectoFacturacion/comprobantes/serializers.py:51-74 | as above; a per-number failure names a rejected number |
| BaseDatos.ActualizarSerie | backend/comprobantes/serializers.py:71-97 | a failed update writes nothing; a successful one answers the key, writes only the series table, keeps every other series and the voided flag |
| BaseDatos.ActualizarSerieLegacy | ProyectoFacturacion/comprobantes/serializers.py:37-49 | as above, and the stored type never changes: the field is read-only |
| BaseDatos.AnularSerie | backend/comprobantes/api.py:50-84 | a failed void writes nothing; a successful one voids a series that was not voided; invoices and quotes never change |
| BaseDatos.GenerarNumeroCompleto | backend/comprobantes/serializers.py:37-42 | a failure writes nothing; success writes only the comprobante table and gives that comprobante an NCF text |
| BaseDatos.Vincular | ProyectoFacturacion/facturas/serializers.py:72-79 | the comprobante names the invoice and its client; invoices and quotes do not change |
| BaseDatos.CrearFactura | ProyectoFacturacion/facturas/serializers.py:25-90 | a failure writes nothing and is a bad reference or the no-comprobante error; success answers the next invoice key, stored with the requested type and client; quotes never change |
| BaseDatos.Activacion | ProyectoFacturacion/facturas/serializers.py:109-111 | activation needs Activa requested, a stored state other than Activa, and a number that is null or 0 |
| BaseDatos.ActualizarFactura | ProyectoFacturacion/facturas/serializers.py:92-159 | a failure writes nothing; success answers the key and leaves every other invoice and every quote unchanged |
| BaseDatos.CrearCotizacion | ProyectoFacturacion/facturas/serializers.py:198-223 | a failure writes nothing; success answers the next quote key, keeps the other quotes, and touches no invoice, comprobante or series |
| PropiedadesSeries.AltaPreserva | backend/comprobantes/serializers.py:101-121 | the writes of a creation (the series plus free comprobantes of its type) keep the tables' integrity |
| PropiedadesSeries.CrearSeriePreserva | backend/comprobantes/serializers.py:99-123 | every outcome of a series creation keeps the tables' integrity |
| PropiedadesSeries.CrearSerieLegacyPreserva | ProyectoFacturacion/comprobantes/serializers.py:51-74 | every outcome of the older creation, including a mid-loop failure, keeps the tables' integrity |
| PropiedadesSeries.CrearSerieForma | backend/comprobantes/serializers.py:99-123 | a successful creation answers the next key, stores the series there, and adds the pool of width-10 NCFs for its range |
| PropiedadesSeries.PoolAnadido | backend/comprobantes/serializers.py:106-121 | adding the pool keeps every existing comprobante; each new one is the record of a number of the range |
| PropiedadesSeries.PoolCardinal | backend/comprobantes/serializers.py:106-121 | adding the pool grows the table by exactly the size of the range |
| PropiedadesSeries.PoolCubre | backend/comprobantes/serializers.py:106-121 | every number of the range gets a new record |
| PropiedadesSeries.PoolNuevos | backend/comprobantes/serializers.py:108-121 | every new record is in range, of the series' type, free, not voided, and carries the NCF text of its number |
| PropiedadesSeries.CrearSerieConserva | backend/comprobantes/serializers.py:99-123 | a creation uses a fresh key, keeps every existing comprobante unchanged, and adds `hasta - desde + 1` |
| PropiedadesSeries.CrearSerieNuevos | backend/comprobantes/serializers.py:106-121 | after a creation every new comprobante is in range, of the type, free, and formatted to width 10 |
| PropiedadesSeries.CrearSerieCubre | backend/comprobantes/serializers.py:106 | every number of the range has a new comprobante of the type |
| PropiedadesSeries.AltaConComprobantes | backend/comprobantes/serializers.py:61-68 | after the creation writes of a non-empty range, the range query of the lock finds comprobantes |
| PropiedadesSeries.SerieNuevaConComprobantes | backend/comprobantes/serializers.py:61-68 | a series created with a non-empty range reports `tiene_comprobantes_generados` at once |
| PropiedadesSeries.ActualizarSerieValida | backend/comprobantes/serializers.py:71-97 | an update of an existing series with a valid type succeeds iff `validate` accepts it |
| PropiedadesSeries.SerieNuevaBloqueada | backend/comprobantes/serializers.py:78-95 | a freshly created non-empty series is locked: a valid-range update succeeds iff it touches only the two modifiable fields |
| PropiedadesSeries.ActualizarSeriePreserva | backend/comprobantes/serializers.py:71-97 | both update variants keep the tables' integrity |
| PropiedadesSeries.ActualizarSerieEscribe | backend/comprobantes/serializers.py:78-95 | a successful update writes only that series; a series with comprobantes in range keeps its type and bounds |
| PropiedadesSeries.AnularSeriePreserva | backend/comprobantes/api.py:50-84 | voiding keeps the tables' integrity |
| PropiedadesSeries.AnularExacto | backend/comprobantes/api.py:63-84 | voiding marks the series and exactly the selected comprobantes; it answers how many it flipped; invoices and quotes are untouched |
| PropiedadesSeries.AnularDosVeces | backend/comprobantes/api.py:56-61 | voiding a voided series fails with 'ya está anulada' and writes nothing |
| PropiedadesSeries.GenerarNumeroCompletoPreserva | backend/comprobantes/serializers.py:37-42 | regenerating an NCF text keeps the tables' integrity |
| PropiedadesSeries.GenerarNumeroCompletoEscribe | backend/comprobantes/serializers.py:37-42 | only the NCF text changes; it starts with the type code and its tail reads back as the number |
| PropiedadesFacturas.NcfUnico | ProyectoFacturacion/facturas/serializers.py:72-76 | under the two-way link no two invoices share an NCF, and an NCF held by an invoice is not free |
| PropiedadesFacturas.CursorSerie | ProyectoFacturacion/facturas/serializers.py:168-177 | with no containing series the series are unchanged; otherwise only the lowest-key containing series gets the used number as cursor |
| PropiedadesFacturas.VincularEnlaces | ProyectoFacturacion/facturas/serializers.py:72-79 | linking a free comprobante to an invoice without an NCF keeps the link two-way |
| PropiedadesFacturas.VincularPreserva | ProyectoFacturacion/facturas/serializers.py:72-79 | writing an invoice with a free comprobante and linking it back keeps the tables' integrity |
| PropiedadesFacturas.EscrituraPreserva | ProyectoFacturacion/facturas/serializers.py:136 | writing an invoice that keeps its NCF and valid references keeps the tables' integrity |
| PropiedadesFacturas.CrearActivaPreserva | ProyectoFacturacion/facturas/serializers.py:32-79 | a successful Activa creation keeps the tables' integrity |
| PropiedadesFacturas.CrearFacturaPreserva | ProyectoFacturacion/facturas/serializers.py:25-90 | every outcome of an invoice creation keeps the tables' integrity |
| PropiedadesFacturas.ActualizarFacturaPreserva | ProyectoFacturacion/facturas/serializers.py:92-159 | every outcome of an invoice update keeps the tables' integrity |
| PropiedadesFacturas.Solicitada | ProyectoFacturacion/facturas/serializers.py:55-57 | the invoice a request asks for has no number and no NCF, and has the request's type and client; its state defaults to Pendiente |
| PropiedadesFacturas.CrearFacturaComoClean | backend/facturas/models.py:27-42 | for valid references, creation fails iff `clean` would reject the requested invoice, and then writes nothing |
| PropiedadesFacturas.CrearFacturaActiva | ProyectoFacturacion/facturas/serializers.py:32-79 | an Activa creation stores the invoice under the next key with a number above all others and the lowest-key free comprobante of its type, which it then holds; only that comprobante changes; the series move exactly as `_actualizar_numero_actual_serie` moves them; no other invoice and no quote changes |
| PropiedadesFacturas.CrearFacturaNoActiva | ProyectoFacturacion/facturas/serializers.py:55-57 | any other creation stores the invoice without number or NCF and touches no comprobante or series |
| PropiedadesFacturas.ActivacionTipoGuardado | ProyectoFacturacion/facturas/serializers.py:109-146 | an activation draws the lowest-key free NCF of the invoice's stored type, even when the request changes the type, and gives the next number; that comprobante alone is linked back to the invoice and its client, the series move as `_actualizar_numero_actual_serie` moves them, and no other invoice changes |
| PropiedadesFacturas.SinActivacion | ProyectoFacturacion/facturas/serializers.py:109-136 | without activation an update keeps number and NCF; the state is written as sent, whatever the stored state |
| PropiedadesFacturas.ActivacionUnaVez | ProyectoFacturacion/facturas/serializers.py:109-111 | right after an activation the invoice is Activa, so the next update cannot activate it again |
| PropiedadesFacturas.ActivacionConNcf | ProyectoFacturacion/facturas/serializers.py:109-139 | activating an invoice that already holds an NCF succeeds on intact tables, keeps that NCF, gives the next number, and touches no comprobante and no series |
| FacturasModelos.SiguientePositivo | ProyectoFacturacion/facturas/serializers.py:112-116 | when every stored number is at least 1, the next number is at least 1 |
| PropiedadesFacturas.CrearFacturaPositivos | ProyectoFacturacion/facturas/serializers.py:32-57 | a creation keeps every stored invoice number at least 1 (the number is read-only, line 16, so only the serializer writes it) |
| PropiedadesFacturas.ActualizarFacturaPositivos | ProyectoFacturacion/facturas/serializers.py:108-136 | an update keeps every stored invoice number at least 1 |
| PropiedadesFacturas.NumeroConservado | ProyectoFacturacion/facturas/serializers.py:109-116 | an invoice with a truthy number keeps that number through any sequence of updates |
| PropiedadesFacturas.ActivacionesPosteriores | ProyectoFacturacion/facturas/serializers.py:108-116 | on tables whose numbers are all at least 1, an activated invoice keeps the number it got through any sequence of later updates, and no request activates it again |
| PropiedadesFacturas.AnuladoSigueDisponible | ProyectoFacturacion/facturas/serializers.py:42-46 | voiding a series leaves the free comprobantes, and the one an activation picks, unchanged |
| PropiedadesFacturas.CrearCotizacionPreserva | ProyectoFacturacion/facturas/serializers.py:198-223 | a quote creation keeps the tables' integrity |
| PropiedadesFacturas.CotizacionNumerada | ProyectoFacturacion/facturas/serializers.py:205-209 | a new quote gets the next key and a number above all others (1 when first), for its client |
| Consultas.PrimerLibre | ProyectoFacturacion/facturas/serializers.py:42-46 | the scan returns the lowest-key free comprobante of the type |
| Consultas.SiguienteNumeroFactura | ProyectoFacturacion/facturas/serializers.py:33-37 | the scan returns the next invoice number |
| Consultas.SiguienteNumeroCotizacion | ProyectoFacturacion/facturas/serializers.py:205-209 | the scan returns the next quote number |
| Consultas.SerieQueContiene | ProyectoFacturacion/facturas/serializers.py:168-177 | none iff no series contains the number; otherwise the lowest-key containing series, which the cursor step updates |
| Consultas.Insertar | backend/comprobantes/api.py:34 | inserting a key keeps the list free of repeats and in ascending number |
| Consultas.Disponibles | backend/comprobantes/api.py:18-43 | without the parameter it is the parameter error; otherwise every free comprobante of the type, once each, in ascending number |
| Consultas.Alertas | backend/comprobantes/api.py:92-121 | an entry for every watched series with at most `limite` left and for nothing else, each once, each built as `AlertaDe` |
| Almacen.Store.Generar | backend/comprobantes/serializers.py:106-121 | the loop adds exactly the pool of the range under the next keys and advances the key counter by its size |
| Almacen.Store.Registrar | backend/comprobantes/serializers.py:101-121 | stores the series under the next key and its pool of comprobantes |
| Almacen.Store.PrimerFallo | ProyectoFacturacion/comprobantes/serializers.py:58-72 | the loop stops at the first rejected number, or at none |
| Almacen.Store.CreateSerie | backend/comprobantes/serializers.py:99-123 | the answer and the new tables are those of the creation; the invariant holds |
| Almacen.Store.CreateSerieLegacy | ProyectoFacturacion/comprobantes/serializers.py:51-74 | the answer and the new tables are those of the older creation, with nothing kept on a mid-loop failure; the invariant holds |
| Almacen.Store.UpdateSerie | backend/comprobantes/serializers.py:71-97 | the answer and the new tables are those of the update; the invariant holds |
| Almacen.Store.UpdateSerieLegacy | ProyectoFacturacion/comprobantes/serializers.py:37-49 | the answer and the new tables are those of the older update, which ignores a sent type because the field is read-only; the invariant holds |
| Almacen.Store.Anular | backend/comprobantes/api.py:50-90 | the answer and the new tables are those of the void cascade; the invariant holds |
| Almacen.Store.GenerarNumeroCompletoDe | backend/comprobantes/serializers.py:37-42 | writes the NCF text of one comprobante as `GenerarNumeroCompleto` does; the invariant holds |
| Almacen.Store.Enlazar | ProyectoFacturacion/facturas/serializers.py:72-79 | the comprobante records the invoice and its client, and the containing series' cursor moves |
| Almacen.Store.CreateFactura | ProyectoFacturacion/facturas/serializers.py:25-90 | the answer and the new tables are those of the invoice creation; the invariant holds |
| Almacen.Store.CreateActiva | ProyectoFacturacion/facturas/serializers.py:32-54 | the Activa branch: next number, first free comprobante, link back, or the no-comprobante error |
| Almacen.Store.UpdateFactura | ProyectoFacturacion/facturas/serializers.py:92-159 | the answer and the new tables are those of the invoice update; the invariant holds |
| Almacen.Store.CreateCotizacion | ProyectoFacturacion/facturas/serializers.py:198-223 | the answer and the new tables are those of the quote creation; the invariant holds |
| FacturaConfig.Filtrar | frontend/src/config/facturaConfig.js:11-14 | the filtered list is no longer than the table and holds only entries with the flag |
| FacturaConfig.Buscar | frontend/src/config/facturaConfig.js:18 | `find` answers nothing iff no entry has the value; otherwise the first entry with it |
| FacturaConfig.EsEstadoEditable | frontend/src/config/facturaConfig.js:17-19 | true exactly for 'Borrador' and 'Pendiente'; every other text, known or not, is not editable |
| FacturaConfig.FiltrarEnOrden | frontend/src/config/facturaConfig.js:11-14 | a filter keeps the table's order |
| FacturaConfig.FiltrarParticion | frontend/src/config/facturaConfig.js:11-14 | the two complementary filters together hold each entry exactly once |
| FacturaConfig.ListasParticion | frontend/src/config/facturaConfig.js:11-14 | ESTADOS_EDITABLES and ESTADOS_NO_EDITABLES partition ESTADOS_FACTURA, each in table order, each with its flag |
| FacturaConfig.ListasConcretas | frontend/src/config/facturaConfig.js:2-14 | the editable list is Borrador, Pendiente; the other is Activa, Pagada, Anulada |
| FacturaConfig.EstadosCoinciden | frontend/src/config/facturaConfig.js:2-8 | the table lists the backend's five states in enum order, value equal to label, all values distinct |
| FacturaConfig.EditableSegunEstado | frontend/src/config/facturaConfig.js:17-19 | on the backend's states exactly Borrador and Pendiente are editable; a text naming no state is not |
| FacturaConfig.EditableSegunListas | frontend/src/config/facturaConfig.js:11-19 | a text is editable iff an entry of ESTADOS_EDITABLES has it; the values of ESTADOS_NO_EDITABLES are refused |
| ComprobantesLista.RestantesVista | frontend/src/pages/Comprobantes/ComprobantesList.jsx:31 | never negative; 0 unless both bounds are truthy; when positive, cursor plus count is `hasta` |
| ComprobantesLista.FilaDe | frontend/src/pages/Comprobantes/ComprobantesList.jsx:31-49 | a row keeps the series' id and cursor; its count is the screen's non-negative count; its label is the one for that count; its range text is the two bounds (or 'N/A') joined by ' - '; its type text is the code and description or 'Sin tipo' |
| ComprobantesLista.DataFiltrada | frontend/src/pages/Comprobantes/ComprobantesList.jsx:30-50 | one row per series, with the same id in the same position |
| ComprobantesLista.EtiquetaUnica | frontend/src/pages/Comprobantes/ComprobantesList.jsx:32-47 | exactly one label: Agotado iff 0 left, Por agotarse iff 1 to 5 left, Disponible iff more |
| ComprobantesLista.Etiqueta | frontend/src/pages/Comprobantes/ComprobantesList.jsx:32-47 | Agotado for 0 left, Por agotarse for 1 to 5, Disponible above 5 |
| ComprobantesLista.FilaSegunModelo | frontend/src/pages/Comprobantes/ComprobantesList.jsx:31-47 | the row's count is `comprobantes_restantes`, Agotado is `esta_agotado`, Por agotarse is `esta_por_agotarse(5)` |
| ComprobantesLista.DataFiltradaSegunModelo | frontend/src/pages/Comprobantes/ComprobantesList.jsx:30-50 | row by row the table carries the id, count and labels the backend model defines |
| ComprobanteForm.OSi | frontend/src/hooks/useComprobanteForm.js:40-42 | `x \|\| d` keeps a truthy x and otherwise gives d |
| ComprobanteForm.Entero | frontend/src/hooks/useComprobanteForm.js:48 | `parseInt(x) \|\| 0`: a number reads as itself; null, booleans and unreadable text read as 0 |
| ComprobanteForm.EnteroDeTexto | frontend/src/hooks/useComprobanteForm.js:48 | the text of any integer reads back as that integer |
| ComprobanteForm.Maximo | frontend/src/hooks/useComprobanteForm.js:50 | `Math.max` of a non-empty list is one of its elements, and no element exceeds it |
| ComprobanteForm.ProponerNumeroActual | frontend/src/hooks/useComprobanteForm.js:46-54 | 1 with no series; above every parsed cursor; one above one of them |
| ComprobanteForm.Edicion | frontend/src/hooks/useComprobanteForm.js:36-43 | the loaded object is the API's, cursor included; date and flags default to '' and false when missing or falsy; truthy values are kept |
| ComprobanteForm.EdicionIdempotente | frontend/src/hooks/useComprobanteForm.js:38-43 | loading an already loaded object changes nothing |
| ComprobanteForm.SerieForm.constructor | frontend/src/hooks/useComprobanteForm.js:8-16 | the form starts with the seven defaults |
| ComprobanteForm.SerieForm.Cargar | frontend/src/hooks/useComprobanteForm.js:36-55 | edit mode replaces the state by the loaded object; create mode writes only the proposed cursor |
| ComprobanteForm.SerieForm.HandleInputChange | frontend/src/hooks/useComprobanteForm.js:75-80 | the named key takes the value and every other key keeps its own |

## Behaviour worth knowing

- A series creation checks only `desde < hasta` when both are truthy. There
  is no overlap check, and a missing bound passes validation.
- The creation then fails inside its transaction (`RangoIncompleto`).
- Allocation does not pick a series. It takes the lowest-key comprobante of
  the type that has no client and no invoice. Voided, expired or exhausted
  ranges are not excluded: `PropiedadesFacturas.AnuladoSigueDisponible`.
- The cursor is set to the number just used, not advanced.
- `comprobantes_restantes` is `hasta - numero_actual`, without the `+ 1`.
- The void count is the number of free, not yet voided comprobantes in the
  range, not `hasta - numero_actual + 1`.
- A voided series can still be updated.
- The server does not refuse edits of Activa, Pagada or Anulada invoices.
  Only the client-side table decides editability:
  `PropiedadesFacturas.SinActivacion`, `FacturaConfig.EsEstadoEditable`.
- Alerts are neither sorted nor truncated. The older view also reports
  voided series.

## Left out

- Concurrency: `select_for_update` and the isolation of `transaction.atomic`
  are not modelled. Each request is one atomic step on the tables;
  interleavings of concurrent activations are not.
- HTTP plumbing: status codes, messages and `to_representation` are not
  modelled; errors are `Error` values. For example, `anular` on a missing key
  answers 500 because the `except Exception` swallows the 404.
- The company stamp that `save()` takes from the current user, and
  `get_current_user`, are not modelled; they are a thread-local outside the
  core.
- Money and detail lines are not modelled: `total`, `DetalleFactura` and
  `DetalleCotizacion`, and the delete-and-recreate loops over them.
- Dates are opaque text and never compared. The creation date of a series
  (`fecha_creacion.date()`) is the parameter `hoy`.
- The row date of the series list (`toLocaleDateString`) is left out: it is
  locale formatting.
- Generic CRUD is not modelled beyond `_generar_numero_completo`: creating,
  editing or deleting types, single comprobantes and quotes through the
  plain ModelViewSets. Editing a comprobante that way can break the two-way
  link `BaseDatos.Enlaces`, which the database does not enforce.
- `FacturasModelos.SiguienteNumero`: assumes the database sorts nulls last in
  a descending order, as SQLite and MySQL do. On PostgreSQL an invoice
  without a number would come first, and the next number would be 1.
- `ComprobantesApi.Limite` and `Consultas.Disponibles`: query parameters are
  taken as already numeric. A non-numeric `limite` or `tipo_comprobante`
  raises and answers 500, which is not modelled.
- `ComprobantesSerializers.FormatNcf`: the database limit of 20 characters
  on `numero_comprobante_completo` is not modelled.
- `Almacen.Store.CreateSerieLegacy`: the older serializers declare
  `tipo_comprobante` read-only (ProyectoFacturacion/comprobantes/serializers.py:12
  and :37), so a real request cannot set it. Both `tipo_comprobante` columns
  are NOT NULL foreign keys, so the insert of the series fails. The insert of
  each comprobante would fail too, and `_generar_numero_completo` (line 31)
  reads the missing type. As written, no creation of the older variant ever
  commits. The model's Ok branch, which takes the type from the request as
  the current variant does, is the evidently intended behaviour, not the
  actual one.
- `BaseDatos.CrearSerieLegacy`: the same gap as the line above.
- `Almacen.Store.CreateSerieLegacy`: why a per-number serializer rejects a
  number is abstracted as the set `fallidos`.
- `Consultas.Alertas`: the order of the entries is not stated; the view uses
  the queryset's unspecified order.
- `FacturasModelos.Clean` is modelled on its own. The serializer never calls
  it; `PropiedadesFacturas.CrearFacturaComoClean` relates the two.
- The existence query of `clean` is the comprobante table itself.
- `ComprobanteForm.Entero`: `parseInt` also reads a leading integer prefix of
  a text ("12abc" gives 12) and skips leading blanks. Called without a radix,
  it reads "0x1A" as 26. The model reads only a fully numeric decimal text
  and counts anything else as 0.
- `FacturasModelos.SiguienteCotizacion`: `numero_cotizacion` is nullable
  (backend/facturas/models.py:60), but the model gives every quote a number.
  The serializer always sets one (the field is read-only there). A quote
  stored without a number by another path could sort first in the
  descending order; `numero_cotizacion + 1` would then raise. That is not
  modelled.
- `PropiedadesFacturas.ActivacionesPosteriores`: assumes every stored invoice
  number is at least 1. The two serializer requests keep this
  (`CrearFacturaPositivos`, `ActualizarFacturaPositivos`). A number of 0 or
  below, written by another path, would let a later update activate the
  invoice again.
- Network fetches, loading and error flags, console logging and navigation
  in the React code are left out: they are I/O outside the core.
