# Contract expiry classifier and list filters

A Dafny model of the decision logic in `Backend/app.py` of a rental-contract
tracker. That logic covers:

- how a stored end date (`fecha_fin`) is parsed;
- how a contract is classified as `sin_fecha_fin`, `vencido`, `por_vencer` or `vigente` from that date, today and a threshold in days (`umbral`);
- how the three read routes build their lists from the classifier;
- the small checks the write routes make before touching the database.

The current date is the parameter `hoy`. The rows the database returns are parameters too.

Modules:

- `Calendar` (calendar.dfy): proleptic Gregorian dates.
  - `Ordinal` is Python's `date.toordinal`.
  - `DaysBetween(hoy, fin)` is `(fin - hoy).days`.
- `IsoDate` (iso_date.dfy): `datetime.strptime(s, "%Y-%m-%d").date()` and `_parse_iso_date`.
  - The parser is modelled on the pattern strptime actually compiles: four digits for `%Y`; `1[0-2]|0[1-9]|[1-9]` for `%m`; `3[01]|[12]\d|0[1-9]|[1-9]| [1-9]` for `%d`.
  - The leftmost match is taken, and then the whole string must be used.
  - The triple must then be a real calendar date with year at least 1.
  - `Spells` states without the matching engine which texts name which date.
- `PyInt` (py_int.dfy): `int(s)` on text, as used for the `umbral` query parameter.
  - It accepts the blank and `\t \n \v \f \r` around the number, an optional sign, and digits with single underscores between them.
  - It does not strip `\x1c` to `\x1f`, although `str.isspace` accepts them.
- `Estado` (estado.dfy): `_estado_contrato`.
- `Routes` (routes.dfy): the `umbral` fallback and the three list routes:
  - GET /api/contracts, `listar_contratos`;
  - GET /api/contracts/list, `listar_contratos_enriquecidos`;
  - GET /api/alerts/contracts, `alertas_contratos_por_vencer`.

  Each route is a method with the source's loop. It is proved equal to a function over the rows, and lemmas about that function state what is kept, dropped and ordered.
- `Validation` (validation.dfy): the checks of the three write routes.
  - POST /api/contracts rejects an extraction.
  - PATCH /api/contracts/&lt;id&gt;/renewal whitelists the decision, and the model includes the effect of its UPDATE.
  - POST /api/contracts/manual defaults `dias_aviso`.
- `Decimal`, `Wrappers` (decimal.dfy, wrappers.dfy): digits and `Option`/`Result`.

Points of the code the model keeps as they are:

- Threshold source:
  - The table has a per-contract `dias_aviso` column (`Backend/db_init.py:15`), and `listar_contratos_bd` selects it.
  - The code never reads it when classifying. The enriched list and the alerts use the request's `umbral` (default 60), and the plain list uses a fixed 60.
  - The flag is named `requiere_aviso_60d` whatever the threshold.
- Date formats: only what `%Y-%m-%d` accepts is a date. No textual day/month/year form is parsed.
- Strictness:
  - `%Y-%m-%d` is laxer than a strict `YYYY-MM-DD`.
  - `2024-1-5` and `2024-01- 5` are read as 5 January 2024 (`IsoDate.ParseIsoDateSpells`).

## Model

| member | source | states |
|---|---|---|
| IsoDate.ParseIsoDate | Backend/app.py:237-239 | a missing or empty argument gives no date |
| IsoDate.Fields | Backend/app.py:241 | no contract of its own: the fields the pattern reads; `IsoDate.FieldsIffSpells` states which texts give which triple |
| IsoDate.Strptime | Backend/app.py:137 | no contract of its own: `strptime(..., "%Y-%m-%d").date()`; `IsoDate.ParseIsoDateSpells` and `IsoDate.ParseIsoDateRejects` state what it accepts and rejects |
| IsoDate.FormatIso | Backend/app.py:149-150 | no contract of its own: `str(d)` of a date, also `isoformat` in `Backend/db.py:60-61`; `IsoDate.FormatIsoRoundTrip` states that parsing it gives d back |
| IsoDate.FieldsIffSpells | Backend/app.py:241 | strptime reads (y, m, d) from a text exactly when the text is a four-digit year, `-`, an accepted spelling of m, `-`, an accepted spelling of d (two digits, one digit, or for the day also a blank and one digit), and nothing more |
| IsoDate.ParseIsoDateSpells | Backend/app.py:237-243 | `_parse_iso_date(s)` is the calendar date c exactly when s spells c in an accepted form |
| IsoDate.ParseIsoDateRejects | Backend/app.py:240-243 | the result is None exactly when every triple the text spells is outside the calendar (no text, wrong shape, 2024-02-30, year 0) |
| IsoDate.FormatIsoRoundTrip | Backend/app.py:237-243 | parsing `str(d)` of a date gives back d |
| Calendar.Ordinal | Backend/app.py:253 | no contract of its own: the day number of `date.toordinal`; `Calendar.OrdinalOrder` and `Calendar.NextDayOrdinal` state its properties |
| Calendar.DaysBetween | Backend/app.py:141 | no contract of its own: `(fin - hoy).days`; `Calendar.OrdinalOrder` states that its sign orders the two dates |
| Calendar.OrdinalOrder | Backend/app.py:253 | the day number orders dates as the calendar does and is one-to-one, so the sign of `(fin - hoy).days` tells whether fin is before, on or after hoy |
| Calendar.NextDayOrdinal | Backend/app.py:253 | the day after d has the day number of d plus one |
| Estado.Classify | Backend/app.py:250-259 | the case split, each case both ways: no date iff `sin_fecha_fin` with no days and no notice; otherwise the days are `fin - hoy`; `vencido` iff days < 0; `por_vencer` iff 0 <= days <= umbral, both bounds inclusive; `vigente` iff days >= 0 and days > umbral; notice iff `por_vencer` |
| Estado.EstadoContrato | Backend/app.py:246-251 | a missing or empty end date gives (None, `sin_fecha_fin`, false); the notice flag holds exactly for `por_vencer`, for every input |
| Estado.VencidoIffEndedBefore | Backend/app.py:253-256 | a dated contract is `vencido` exactly when its end date is an earlier calendar day than today |
| Estado.DueTodayIsPorVencer | Backend/app.py:257-258 | a contract ending today is `por_vencer` with 0 days left and notice, for every threshold of 0 or more |
| Estado.SinFechaFinIffNoDate | Backend/app.py:248-251 | a text gives `sin_fecha_fin` exactly when it spells no calendar date |
| Estado.EstadoOfFormatted | Backend/app.py:248-253 | classifying the ISO text of a date is classifying the date itself |
| Estado.NextDayAdvances | Backend/app.py:253-259 | from one day to the next the days left drop by one and the state only moves forward: vigente, por_vencer, vencido |
| PyInt.Parse | Backend/app.py:270 | no contract of its own: `int(s)` on text, None for the ValueError; `PyInt.RoundTrip` and `PyInt.ParseIgnoresSpace` state what it reads |
| PyInt.Format | Backend/app.py:268 | no contract of its own: `str(n)`, of which the default text "60" is one; `PyInt.RoundTrip` states that `int` reads it back |
| PyInt.RoundTrip | Backend/app.py:270 | `int(str(n)) == n` for every integer n, negative ones included |
| PyInt.ParseIgnoresSpace | Backend/app.py:270 | blanks and `\t \n \v \f \r` around the text do not change what `int` reads |
| Routes.ParseUmbral | Backend/app.py:268-272 | no contract of its own: the `umbral` parameter, also at `Backend/app.py:294-298`; `Routes.UmbralDefault`, `Routes.UmbralFallback` and `Routes.UmbralOfInteger` state its default, its fallback and what it reads |
| Routes.UmbralDefault | Backend/app.py:268-270 | without the parameter the threshold is 60 |
| Routes.UmbralFallback | Backend/app.py:269-272 | a parameter `int` rejects gives 60 |
| Routes.UmbralSeparatorFallback | Backend/app.py:269-272 | `"\x1c5"`, a number behind a separator `int` does not strip, gives 60 |
| Routes.UmbralOfInteger | Backend/app.py:294-298 | a decimal integer with blanks or `\t \n \v \f \r` around it is read as that integer |
| Routes.ListarContratosEnriquecidos | Backend/app.py:266-289 | the loop's items are the enriched-list function of the contracts under the parsed threshold, and `umbral_dias` is that threshold |
| Routes.EnrichedItems | Backend/app.py:281-287 | no contract of its own: the enriched list; the Routes.Enriched* lemmas below state its order, soundness and completeness |
| Routes.EnrichedOrdered | Backend/app.py:281-287 | the listed contracts are a sublist of the input, in its order |
| Routes.EnrichedSound | Backend/app.py:283-287 | every item is its own contract with that contract's classification, and passes the `only` filter |
| Routes.EnrichedOnlyMatches | Backend/app.py:285-286 | with `only` set to a non-empty text, every item's `estado` is `only` |
| Routes.EnrichedComplete | Backend/app.py:282-287 | every contract whose classification passes the filter is listed |
| Routes.EnrichedIsFilter | Backend/app.py:281-287 | the contracts of the list are exactly the input contracts whose classification passes the filter, in input order and each as often as in the input (compared with `Routes.KeptContracts`, a filter taken from the front) |
| Routes.EnrichedUnfiltered | Backend/app.py:282-287 | with `only` unset or empty, every contract appears once, in order, with its classification |
| Routes.EnrichedUnknownOnly | Backend/app.py:274-286 | an `only` naming no state lists nothing |
| Routes.AlertasContratosPorVencer | Backend/app.py:291-320 | the loop's alerts are the alert function of the contracts under the parsed threshold, and `total` is their number |
| Routes.AlertItems | Backend/app.py:304-314 | no contract of its own: the alert list; the Routes.Alerts* lemmas below state its order, soundness and completeness |
| Routes.AlertsOrdered | Backend/app.py:304-314 | the alerted contracts are a sublist of the input, in its order |
| Routes.AlertsSound | Backend/app.py:305-314 | every alert is a pending contract (decision None or `PENDIENTE`) classified `por_vencer`, carrying that classification |
| Routes.AlertsComplete | Backend/app.py:305-314 | every pending contract classified `por_vencer` is alerted |
| Routes.AlertsAreFilter | Backend/app.py:304-314 | the contracts of the alerts are exactly the pending input contracts classified `por_vencer`, in input order and each as often as in the input (compared with `Routes.DueContracts`, a filter taken from the front) |
| Routes.AlertsNeverDecided | Backend/app.py:306-309 | a contract decided `RENUEVA` or `NO_RENUEVA` never appears |
| Routes.AlertsArePendingPorVencer | Backend/app.py:304-314 | the alerts are the pending items of the enriched list filtered with `only=por_vencer` |
| Routes.AsText | Backend/app.py:149-150 | no contract of its own: `str(x) if x else None` on a cell; `Routes.EndDateIsParsedText` relates it to the end date |
| Routes.EndDate | Backend/app.py:129-139 | no contract of its own: the end date of `listar_contratos`; `Routes.EndDateIsParsedText` states that it is the date `_parse_iso_date` reads from the cell's text |
| Routes.EndDateIsParsedText | Backend/app.py:129-139 | whether the driver returns a date object or text, the end date is the one `_parse_iso_date` reads from the cell's text |
| Routes.PlainItemOf | Backend/app.py:129-154 | `dias_restantes` and `por_vencer` are the classifier's at the fixed threshold 60; the other fields are copied or turned into text |
| Routes.ListarContratos | Backend/app.py:126-156 | one element per row, in the rows' order, each the row's plain item |
| Validation.CrearContrato | Backend/app.py:30-62 | no or empty text gives the 400 error; otherwise creation succeeds exactly when `ok` is true and some of the five fields is not None, `ok` counting by its Python truth value; the 422 error carries the values of `ok` and `model` (null when missing); and the fields passed to the INSERT are the extracted ones |
| Validation.CreationAlwaysRejectedAsWritten | Backend/app.py:47-62 | for both dicts the extractor returns (the parsed five fields and the all-None fallback), which have no `ok` or `model` key, every contract text is rejected with 422, `"ia_ok": null` and `"ia_modelo": null` |
| Validation.CreationWithExpectedShape | Backend/app.py:54-84 | with the result shape the route expects, a parsed answer with a non-None field is passed to the INSERT exactly as extracted, and any other answer is rejected |
| Validation.ParseDecision | Backend/app.py:165-168 | a decision is accepted exactly when it is `RENUEVA` or `NO_RENUEVA`, and the accepted value names it |
| Validation.ActualizarRenovacion | Backend/app.py:163-178 | an invalid decision is the 400 error and changes nothing; a valid one sets the decision on the contracts with that id and leaves every other contract as it was |
| Validation.DecisionSilencesAlerts | Backend/app.py:173-178 | after an accepted decision, no alert lists that contract, on any day and for any threshold |
| Validation.CrearContratoManual | Backend/app.py:211-218 | a missing `dias_aviso` is passed to the INSERT as 60 and an explicit one, null included, as given; missing parties and dates are passed as null |

## Left out

- Flask routing, `request`/`jsonify`, CORS and HTTP status codes: the routes are functions and methods over their inputs, with error values for the 400 and 422 responses.
- SQL, the `ejecutar` dialect switch, connections, commits and `lastrowid`: storage I/O not modelled. The rows the queries return are parameters, in the order the database gives them. The `ORDER BY fecha_fin` is the database's.
- The row normalisation in `Backend/db.py` and the tables in `Backend/db_init.py` are not part of this model. Contracts carry their dates as ISO text or None, as `listar_contratos_bd` hands them over.
- `Backend/mailer.py` is not part of this model: it is an HTTP call to a mail service.
- `Backend/ai.py` is an external language-model call. Its answer is an input, either the five fields or a parse failure. Answers whose JSON is not a dict, or that carry keys other than the five fields, are not modelled.
- `date.today()` is a clock read, so `hoy` is a parameter. Time zones are not modelled.
- `Routes.ListarContratosEnriquecidos`, `Routes.AlertasContratosPorVencer`: the model fixes one date per request. These two routes read the clock once per contract, inside `_estado_contrato`, so a request that runs across midnight classifies its contracts against two dates. `listar_contratos` reads the clock once.
- `PyInt.Parse`: text with non-ASCII characters (digits and whitespace `int` would convert) and the limit on the number of digits are not modelled.
- `IsoDate.Strptime`: non-ASCII digits are not modelled. Neither is the cached compiled pattern.
- `Estado.NextDayAdvances`: requires that today is not 9999-12-31, the last date Python represents.
- `Validation.CrearContrato`: does not model a `texto_contrato` that is a non-string JSON value, or extracted fields that are not strings or null. A `data` value that is truthy but not a dict, which makes the route fail, is read as missing. It also does not model the shape of the `extraido` dict in the 201 response, only the five values inserted.
- `Validation.CrearContratoManual`: the table's column constraints are not modelled (`dias_aviso INT NOT NULL DEFAULT 60` at Backend/db_init.py:15, and the DATE columns at lines 13-14). An explicit null `dias_aviso` breaks the NOT NULL constraint. Under MySQL's strict mode a malformed date is rejected too. Either makes the INSERT raise, which no handler catches, so the request fails and nothing is stored. The contract states only what is passed to the INSERT.
- `Validation.CrearContratoManual`: the body is a map from keys to null, booleans, integers and strings. A falsy body (null, `[]`, `""`, `0`, `false`) counts as empty. Other non-object bodies, which make `data.get` raise and the route fail, are not modelled; this holds for the three write routes. Floats and lists as values are not modelled, and objects only as dicts of text-or-null fields.
- The notification pass, its one-shot latch and its send loop are not part of this model: no such logic exists in the code.

## Findings

| source | as written | input that shows it | evidently intended | confidence | as-written member | corrected member |
|---|---|---|---|---|---|---|
| Backend/ai.py:52-64 | the extractor returns the bare dict of five fields, but `crear_contrato` reads `ok`, `model` and `data` from it, so `res.get("ok")` is None and every request is rejected with 422 | any non-empty `texto_contrato`, for example one whose extraction finds all five fields | the extractor returns `{"ok": ..., "model": ..., "data": <fields>}` with `ok` set when the answer parsed | not executed | Validation.CreationAlwaysRejectedAsWritten | Validation.CreationWithExpectedShape |
