# Transantiago dashboard: a Dafny model of its data hook and widget helpers

The Transantiago dashboard shows Santiago public-transport data in three
panels: the balance of a bip! card, the buses arriving at a stop, and the
status of the metro network. Every panel gets its data from one hook,
`useTransantiagoDatos`. The hook runs a three-tier decision for each
channel:

- ask the live transit API (`api.xor.cl`);
- if that fails, reuse what an earlier success stored in the browser's
  storage;
- otherwise publish a synthetic, clearly flagged placeholder.

The model covers:

- **Input checks** (`Validation`). A card number is eight to twelve digits.
  A stop code is `PA` in any case, then three or four digits.
- **The three channels** (`TransitData`). Each channel is a pure function.
  It takes the hook's state (`Session`), the browser store (`Storage`), the
  API's reply (`Reply`: timeout, network error, or HTTP status with a
  parsed or malformed body) and the clock. It returns:
  - the new state;
  - the new store;
  - the value the call returns;
  - the request URL.
- **Arrivals** (`Arrivals`). The bus-stop payload is flattened into one
  arrival per bus and sorted by arrival time (`procesarServiciosParadero`).
- **Metro** (`Metro`). The metro-network payload is summarised per line
  (`procesarEstadoMetroNuevo`), and the seven-line synthetic network is
  generated (`generarDatosFallbackMetro`).
- **Cross-call properties** (`TransitProperties`):
  - what the store may hold;
  - which tier answered a call;
  - store round trips;
  - error texts.
- **Widget helpers**:
  - the arrivals widget (`ArrivalsWidget`);
  - the metro-status widget (`MetroWidget`);
  - the metro map (`MetroMap`);
  - the bip! card widget (`BalanceWidget`);
  - the status-code hues all three metro views share (`StationStatus`).
- **JavaScript semantics** the code depends on (`Js`, `Lists`):
  - truthiness;
  - `String(n)`;
  - `includes`;
  - `toUpperCase`;
  - `Number.parseInt`;
  - `filter`;
  - the toggle-membership idiom.

Time is a whole number of milliseconds passed in as `now`. A timestamp
string (`toISOString`) is modelled by the same number.

Where the written description of the dashboard and its code disagree,
this model follows the code:

- The stop channel does not check that the response holds a list of
  services. A non-array `services` field yields no arrivals, and the call
  still counts as a success.
- The metro channel accepts an empty `lines` array.
- When a fresh cached snapshot masks a metro failure, the error slot
  stays empty. The failure is not recorded.

## Model

| member | source | states |
|---|---|---|
| Validation.IsCardNumber | hooks/use-transantiago-datos.ts:79 | a card number is accepted exactly when it has 8 to 12 characters, every one an ASCII digit |
| Validation.IsStopCode | hooks/use-transantiago-datos.ts:164 | a stop code is accepted exactly when it has 5 or 6 characters, its first two upper-case to `PA` and the rest are ASCII digits |
| Validation.StopCodeIgnoresCase | hooks/use-transantiago-datos.ts:164 | the `i` flag: a code is accepted exactly when its upper-cased form is |
| Validation.UpperStopCode | hooks/use-transantiago-datos.ts:164-177 | an accepted stop code upper-cases to `PA` followed by its own digits, and the upper-cased code is still accepted |
| Validation.SameStopIffSameDigits | hooks/use-transantiago-datos.ts:164-177 | two accepted stop codes reach the same API URL exactly when their digits are equal |
| Js.ToUpperAscii | hooks/use-transantiago-datos.ts:177 | upper-casing keeps the length, changes every lower-case ASCII letter to its capital and keeps every other character |
| Js.NatToStringRoundTrip | components/llegadas-tiempo-real.tsx:44 | the decimal digits rendered for a number denote that number |
| Js.ParseIntReadsRendered | components/llegadas-tiempo-real.tsx:110-111 | `Number.parseInt` reads back any rendered integer followed by text that cannot extend a number (such as `" min"` or `" m"`) |
| Js.ParseIntRoundTrip | components/llegadas-tiempo-real.tsx:110-111 | `Number.parseInt(String(i)) == i` for every integer |
| Js.ContainsChar | components/llegadas-tiempo-real.tsx:108-109 | `s.includes(c)` for a one-character text holds exactly when `c` occurs in `s` |
| Lists.Filter | components/estado-metro-widget.tsx:199-202 | `filter` keeps exactly the elements that satisfy the predicate and never grows the list |
| Lists.FilterConcat | components/estado-metro-widget.tsx:236-237 | filtering distributes over concatenation, so the kept elements stay in their original order |
| Lists.FilterPartition | hooks/use-transantiago-datos.ts:437-444 | filtering by a predicate and by its complement splits the list: the two counts add up to its length |
| Lists.Without | components/llegadas-tiempo-real.tsx:49 | `filter((p) => p !== x)` removes every copy of `x`, keeps the count of every other element and shortens the list by the copies removed |
| Lists.Toggle | components/estado-metro-widget.tsx:22-24 | toggling makes the element a member exactly when it was not; adding appends it at the end; every other element keeps its count |
| Lists.ToggleTwice | components/estado-metro-widget.tsx:22-24 | adding an absent element and toggling it again restores the list |
| Lists.WithoutConcat | components/llegadas-tiempo-real.tsx:49 | removing an element from a concatenation removes it from both parts, so the others keep their order |
| TransitData.Receive | hooks/use-transantiago-datos.ts:92-107 | a reply is usable exactly when it is a 2xx answer with a parsed body; a timeout becomes the timeout message; a network error keeps its own message; another status becomes the channel's prefix followed by the status code; an unparsable body keeps the parse error's message |
| TransitData.Start | hooks/use-transantiago-datos.ts:84-85 | starting a query raises only that key's loading flag and clears only that key's error, leaving the data alone |
| TransitData.Finish | hooks/use-transantiago-datos.ts:157-159 | the `finally` clause lowers only that key's loading flag |
| TransitData.EmbeddedErrorIsTruthy | hooks/use-transantiago-datos.ts:110 | `status_code && status_code !== 0` holds exactly when the code is truthy |
| TransitData.EmbeddedErrorMessage | hooks/use-transantiago-datos.ts:112 | an embedded API error reads its `status_description` when that is truthy, and otherwise "Error código " followed by the status code |
| TransitData.CardOutcome | hooks/use-transantiago-datos.ts:103-114 | a card answer is accepted exactly when it is a 2xx parsed body whose `status_code` is falsy; a 2xx parsed body with a truthy `status_code` fails with the embedded error's message; any other reply fails as the shared live stage says |
| TransitData.ConsultarSaldoBip | hooks/use-transantiago-datos.ts:78-160 | a number that fails the check records the invalid-card error and does nothing else. Otherwise the balance URL is requested and a balance is always published. On success it comes from the live data and is stored. On failure the stored balance of the same card is used (marked `fromCache`), or else a zero balance marked `isFallback`. Every failure records its message and leaves the store alone. The stop and metro data are never touched |
| TransitData.StopCacheKey | hooks/use-transantiago-datos.ts:209 | the store key is `paradero_` followed by the code as typed |
| TransitData.StopLive | hooks/use-transantiago-datos.ts:195-201 | a live stop result carries the payload's id, name and status, the time of the query, no provenance flags, and the payload's arrivals sorted |
| TransitData.StopSettle | hooks/use-transantiago-datos.ts:203-258 | after a validated request: success publishes and stores the live result; failure records the message; a stored result younger than 30 minutes is used (marked `fromCache`), else the placeholder marked `isFallback`; only this code's entry changes |
| TransitData.ObtenerLlegadasParadero | hooks/use-transantiago-datos.ts:163-262 | an invalid code records the invalid-stop error under the code and does nothing else. Otherwise the upper-cased code is requested and a result is always published under the code as typed, by the same live, cache and synthetic rule |
| TransitData.MetroOutcome | hooks/use-transantiago-datos.ts:353-362 | a metro answer is accepted exactly when it is a 2xx parsed object whose `lines` is an array |
| TransitData.CachedMetroView | hooks/use-transantiago-datos.ts:309-331 | a stored snapshot is shown exactly when it holds an array and is younger than two hours; it is shown as that array marked `fromCache`, with no timestamp and no `isFallback` |
| TransitData.TranslateMetroError | hooks/use-transantiago-datos.ts:405-411 | a text with "Failed to fetch" becomes the no-connection message; otherwise a text with "Error HTTP" becomes the server-down message; any other text is kept |
| TransitData.MetroLive | hooks/use-transantiago-datos.ts:365-377 | a live snapshot is the normalised lines, stamped with the query time and marked `isFallback: false` |
| TransitData.ObtenerEstadoMetro | hooks/use-transantiago-datos.ts:303-422 | a fresh stored snapshot is published first. Then, on success, the live snapshot is published and stored. On failure the stored snapshot is kept with no error. Without a stored snapshot, the synthetic network is published with the translated error. Card and stop data are untouched |
| TransitProperties.EmptyStorageValid | hooks/use-transantiago-datos.ts:125 | an empty store satisfies the store invariant |
| TransitProperties.CardProvenance | hooks/use-transantiago-datos.ts:122-156 | a card query keeps the store invariant. The published balance is never both cached and synthetic, and always belongs to the queried card. Its flags name the tier that answered: live, cached or synthetic |
| TransitProperties.StopProvenanceLemma | hooks/use-transantiago-datos.ts:203-258 | a stop query keeps the store invariant, and the flags of the published result name the tier that answered |
| TransitProperties.FallbackWellFormed | hooks/use-transantiago-datos.ts:498-546 | every synthetic line's summary agrees with its stations |
| TransitProperties.LiveWellFormed | hooks/use-transantiago-datos.ts:365-377 | every live line's summary agrees with its stations |
| TransitProperties.CachedWellFormed | hooks/use-transantiago-datos.ts:312-327 | under the store invariant, every line of a cached snapshot agrees with its stations |
| TransitProperties.MetroProvenance | hooks/use-transantiago-datos.ts:303-422 | a metro query keeps the store invariant. Every snapshot it shows is well formed, and the flags of the returned one name the tier that answered |
| TransitData.CardCacheHit | hooks/use-transantiago-datos.ts:134-138 | the store serves a balance only when it was stored for the card number asked about, whatever its age |
| TransitData.CardCacheServesOneCard | hooks/use-transantiago-datos.ts:134-138 | at most one card number can hit the store at any time |
| TransitData.StopCacheHit | hooks/use-transantiago-datos.ts:228-231 | a stop entry is served exactly when one is stored under the code and it is less than 1 800 000 ms old |
| TransitData.StopCacheHitEarlier | hooks/use-transantiago-datos.ts:228-231 | freshness only runs out: an entry fresh now was fresh at every earlier time |
| TransitData.StopFallback | hooks/use-transantiago-datos.ts:243-251 | the placeholder keeps the requested code, says "Sin datos disponibles", has status 0, no arrivals and the current time, and is marked as a fallback and not as cached |
| TransitProperties.CardRoundTrip | hooks/use-transantiago-datos.ts:125-141 | after a successful query, a failed query for the same card returns exactly the stored balance, shows it marked `fromCache` and records the failure's message |
| TransitData.CardFallback | hooks/use-transantiago-datos.ts:147-155 | the synthetic balance is 0 pesos for the requested card at the current time, marked as a fallback and not as cached |
| TransitProperties.CardCacheIsPerCard | hooks/use-transantiago-datos.ts:137-156 | a balance stored for one card is never served for another: the other card gets the synthetic zero balance |
| TransitProperties.StopRoundTrip | hooks/use-transantiago-datos.ts:209-258 | after a successful query, a failed query for the same code returns the stored result while it is under 30 minutes old, and the placeholder from then on |
| TransitProperties.StopCacheKeyedAsTyped | hooks/use-transantiago-datos.ts:177-225 | two spellings of one stop send the same request but use different store keys, so a failure under the other spelling falls to the placeholder |
| TransitProperties.MetroRoundTrip | hooks/use-transantiago-datos.ts:309-418 | after a successful query, a failed query returns the same lines marked `fromCache` with no error while under two hours, and the synthetic network with the translated error from then on |
| TransitProperties.MetroIdempotent | hooks/use-transantiago-datos.ts:365-377 | two successful metro queries with the same answer return the same snapshot, apart from the timestamp, whatever the earlier state and store |
| TransitProperties.MetroNetworkErrorText | hooks/use-transantiago-datos.ts:405-409 | with no fresh stored snapshot, a "Failed to fetch" network error is shown as the no-connection message |
| TransitProperties.MetroHttpErrorText | hooks/use-transantiago-datos.ts:353-354 | with no fresh stored snapshot, any non-2xx status is shown as the server-down message |
| TransitProperties.MetroTimeoutText | hooks/use-transantiago-datos.ts:344-347 | with no fresh stored snapshot, a timeout is shown with the timeout message unchanged |
| TransitProperties.TimeoutTextKept | hooks/use-transantiago-datos.ts:405-411 | the translation leaves the timeout message as it is |
| TransitProperties.StopKeysAreNotChannelKeys | hooks/use-transantiago-datos.ts:169-170 | an accepted stop code never collides with the card or metro keys of the shared loading and error maps |
| TransitProperties.RejectedCodeReachesMetroSlot | hooks/use-transantiago-datos.ts:164-166 | a rejected stop code is still used as a key: the code `metro` writes the invalid-stop message into the metro error slot |
| Arrivals.Destino | hooks/use-transantiago-datos.ts:298-300 | the destination is `Ruta ` followed by the service id, which can be read back from it |
| Arrivals.DestinoInjective | hooks/use-transantiago-datos.ts:298-300 | two services have the same destination label exactly when they are the same service |
| Arrivals.ArrivalOf | hooks/use-transantiago-datos.ts:276-284 | a bus arrives "Llegando" exactly when its minimum arrival time is 0, and otherwise after that many minutes |
| Arrivals.Flatten | hooks/use-transantiago-datos.ts:271-287 | flattening yields one arrival per bus of every valid service with a non-empty bus array, and nothing else |
| Arrivals.FlattenSingle | hooks/use-transantiago-datos.ts:273-285 | a single service flattens to its own arrivals, one per bus, in the order of its buses |
| Arrivals.FlattenConcat | hooks/use-transantiago-datos.ts:273-285 | flattening distributes over concatenation, so every service contributes its arrivals in place and as many times as it occurs |
| Arrivals.SourceCompare | hooks/use-transantiago-datos.ts:290-294 | the comparator answers -1 whenever the left side is "Llegando", a positive number for a timed arrival against "Llegando", and between two timed arrivals a sign that orders their minutes |
| Arrivals.SourceCompareAgrees | hooks/use-transantiago-datos.ts:290-294 | the source comparator says "not after" exactly when the arriving-first order holds |
| Arrivals.SortedMeansArrivingFirst | hooks/use-transantiago-datos.ts:289-294 | a sorted list has every "Llegando" arrival before every timed one, and the times never decrease |
| Arrivals.Insert | hooks/use-transantiago-datos.ts:290-294 | inserting into a sorted list keeps it sorted and adds exactly that arrival |
| Arrivals.SortArrivals | hooks/use-transantiago-datos.ts:290-294 | sorting returns a permutation of its input in arriving-first order |
| Arrivals.ProcesarServicios | hooks/use-transantiago-datos.ts:265-295 | a non-array yields no arrivals; otherwise the result is a sorted permutation of the flattened arrivals, one per bus, each with its destination label and never a 0-minute time |
| Metro.LineColor | hooks/use-transantiago-datos.ts:426-442 | a line's colour is the table colour for the seven known codes and gray for any other |
| Metro.OperationalPlusProblems | hooks/use-transantiago-datos.ts:437-445 | operational and problem stations together are all the stations, and there are no problems exactly when every status is 0 |
| Metro.WellFormedCounts | hooks/use-transantiago-datos.ts:437-445 | in an agreeing summary, operational plus problems is the total, and the line is fine exactly when every station is operational |
| Metro.StationOf | hooks/use-transantiago-datos.ts:447-451 | a normalised station keeps its name and status and takes the first line listed, if there is one |
| Metro.SummariesCommute | hooks/use-transantiago-datos.ts:437-444 | counting and naming the problem stations on the API records gives what the same work gives on the normalised stations |
| Metro.NormalizeLine | hooks/use-transantiago-datos.ts:436-452 | a normalised line keeps the API's code, name and stations in order. Its summary agrees with its stations, and it is fine exactly when every API status is 0 |
| Metro.Normalize | hooks/use-transantiago-datos.ts:425-454 | one agreeing summary per API line, in the API's order |
| Metro.FallbackLine | hooks/use-transantiago-datos.ts:510-528 | a synthetic line has the given number of stations, all operational, each listing its own line, and no problems |
| Metro.FallbackLines | hooks/use-transantiago-datos.ts:500-528 | seven lines L1, L2, L3, L4, L4A, L5, L6 with 27, 22, 18, 23, 6, 30 and 10 stations, each agreeing with its stations |
| Metro.FallbackLinesWellFormed | hooks/use-transantiago-datos.ts:500-528 | every synthetic line agrees with its stations |
| Metro.FallbackSnapshot | hooks/use-transantiago-datos.ts:531-545 | the synthetic snapshot carries those lines, stamped with the current time and marked `isFallback` |
| StationStatus.HueTellsStatus | components/estado-metro-widget.tsx:56-69 | the four known statuses are drawn in four different hues |
| ArrivalsWidget.FormatearTiempo | components/llegadas-tiempo-real.tsx:41-45 | a falsy value, `"Llegando"` or 0 reads "Llegando"; any other text already containing "min" is kept as it is, and any other value is rendered followed by " min" |
| ArrivalsWidget.FormatearTiempoIdempotent | components/llegadas-tiempo-real.tsx:41-45 | formatting an already formatted time changes nothing |
| ArrivalsWidget.TimeTextOfArrival | components/llegadas-tiempo-real.tsx:238 | for the arrivals the hook produces, "Llegando" is shown exactly for arriving buses, and a timed text reads back to its minutes |
| ArrivalsWidget.FormatearDistancia | components/llegadas-tiempo-real.tsx:131-135 | under 100 m the text is "En paradero", from 100 m up to 999 m it is the number of metres followed by " m", and from 1000 m on the kilometre branch is taken |
| ArrivalsWidget.DistanceTextReadsBack | components/llegadas-tiempo-real.tsx:133 | from 100 m to under 1000 m the text is not the at-stop text, and `parseInt` reads it back as the distance |
| ArrivalsWidget.TipoServicio | components/llegadas-tiempo-real.tsx:107-113 | an `E` or `e` anywhere means electric; otherwise a `V` means variant; otherwise the number `parseInt` reads decides: 400 to 499 is a feeder, 500 on is trunk, anything else or no number is normal |
| ArrivalsWidget.LeadingNumberRouteType | components/llegadas-tiempo-real.tsx:110-112 | a service named by a number and a suffix with no `E`, `e` or `V` is a feeder from 400 to 499, trunk from 500 on and normal below 400 |
| ArrivalsWidget.NumberedRouteType | components/llegadas-tiempo-real.tsx:107-113 | a route written as a plain number is a feeder from 400 to 499, trunk from 500 on, and normal below 400 |
| ArrivalsWidget.ColorServicio | components/llegadas-tiempo-real.tsx:115-129 | the colour is purple exactly for normal routes |
| ArrivalsWidget.ColorTellsType | components/llegadas-tiempo-real.tsx:115-129 | two routes share a colour exactly when they share a type |
| ArrivalsWidget.TypeBadge | components/llegadas-tiempo-real.tsx:221-224 | a badge is shown exactly for routes that are not normal |
| ArrivalsWidget.BadgeTellsType | components/llegadas-tiempo-real.tsx:221-224 | two shown badges carry the same letter exactly when the routes share a type |
| ArrivalsWidget.ToggleFavorito | components/llegadas-tiempo-real.tsx:47-54 | toggling makes the stop a favourite exactly when it was not: adding appends it, removing removes every copy, and other stops keep their counts |
| ArrivalsWidget.ToggleKeepsOrder | components/llegadas-tiempo-real.tsx:47-54 | removing a favourite keeps the other favourites in their order |
| ArrivalsWidget.FavoriteToggleTwice | components/llegadas-tiempo-real.tsx:47-54 | adding a favourite and toggling it again restores the list |
| ArrivalsWidget.ShowsEmptyState | components/llegadas-tiempo-real.tsx:202 | the body is the source condition: no arrivals, the stop not loading and no error message; so the message never shows beside an arrival, while loading or beside an error |
| ArrivalsWidget.EmptyStateAfterQuery | components/llegadas-tiempo-real.tsx:202 | after a successful query, "no buses" is shown exactly when the payload has no bus; after a failure with a message, the error is shown instead |
| ArrivalsWidget.ArrivalsFooterAsWritten | components/llegadas-tiempo-real.tsx:253-257 | the body is the source condition: `isFallback`, then `fromCache`, read on the first arrival; the text is always one of the three footer texts, and the live one when there is no arrival |
| ArrivalsWidget.ArrivalsFooterAlwaysLive | components/llegadas-tiempo-real.tsx:253-257 | the footer as written claims live data even when the hook served the result from the store |
| ArrivalsWidget.ArrivalsFooter | components/llegadas-tiempo-real.tsx:253-257 | the corrected footer shows the synthetic text exactly when the published result is a placeholder |
| ArrivalsWidget.ArrivalsFooterAfterQuery | components/llegadas-tiempo-real.tsx:253-257 | the corrected footer names the tier that answered: live, store or synthetic |
| MetroWidget.ToggleLinea | components/estado-metro-widget.tsx:22-24 | a line becomes expanded exactly when it was collapsed; expanding appends it; collapsing removes every copy |
| MetroWidget.ToggleLineaTwice | components/estado-metro-widget.tsx:22-24 | expanding and collapsing a line restores the expanded set |
| MetroWidget.EstadoTexto | components/estado-metro-widget.tsx:41-54 | the text is "Operativa" exactly for status 0 and "Desconocido" exactly for statuses outside 0–3 |
| MetroWidget.EstadoTextoTellsStatus | components/estado-metro-widget.tsx:41-54 | two statuses read the same exactly when they are equal or both unknown |
| MetroWidget.EstadoColor | components/estado-metro-widget.tsx:56-69 | the text colour is the status hue at shade 400 |
| MetroWidget.TextAndColorAgree | components/estado-metro-widget.tsx:41-69 | the text is "Operativa" exactly when the colour is green, and "Desconocido" exactly when it is gray |
| MetroWidget.FilterLines | components/estado-metro-widget.tsx:199-202 | "all" keeps every line; "problems" keeps exactly the lines that list a problem station |
| MetroWidget.ProblemLinesAreDegraded | components/estado-metro-widget.tsx:199-202 | on agreeing summaries, "problems" keeps exactly the lines whose overall status is not 0 |
| MetroWidget.FallbackHasNoProblemLines | components/estado-metro-widget.tsx:199-202 | "problems" shows nothing for the synthetic network |
| MetroWidget.FilterStations | components/estado-metro-widget.tsx:236-237 | "all" keeps every station; "problems" keeps exactly the stations whose status is not 0 |
| MetroWidget.FilteredNamesAreProblems | components/estado-metro-widget.tsx:236-243 | the names of the stations with a non-zero status, in order, are the line's problem names |
| MetroWidget.ProblemStationsMatchSummary | components/estado-metro-widget.tsx:236-243 | expanding a line under "problems" lists, in order, exactly the stations its summary names, and these plus the operational count make the total |
| MetroWidget.CompactLines | components/estado-metro-widget.tsx:99 | the compact view shows the first six lines, or all of them when there are fewer |
| MetroWidget.CompactFallbackOmitsLine6 | components/estado-metro-widget.tsx:99 | the compact view of the synthetic network shows six lines and leaves out L6 |
| MetroWidget.ProvenanceText | components/estado-metro-widget.tsx:121-125 | the three footer labels name the three provenances one to one: each label is shown for exactly one of live, cached and synthetic data |
| MetroWidget.SourceLabel | components/estado-metro-widget.tsx:121-125 | the compact footer reads the provenance in the flags, `isFallback` first, then `fromCache` |
| MetroWidget.SourceLabelAfterQuery | components/estado-metro-widget.tsx:121-125 | after any metro query, the compact footer names the tier that answered |
| MetroWidget.DetailedFooterAsWritten | components/estado-metro-widget.tsx:268-277 | as written, whenever the footer is shown it carries the compact view's provenance text |
| MetroWidget.DetailedFooterNeverCached | components/estado-metro-widget.tsx:268-277 | the detailed footer as written never shows the cache text, and shows nothing at all when the store answered |
| MetroWidget.DetailedFooter | components/estado-metro-widget.tsx:268-277 | the corrected footer is shown exactly for a non-empty array and names the provenance in its flags |
| MetroWidget.DetailedFooterAfterQuery | components/estado-metro-widget.tsx:268-277 | the corrected footer names the tier that answered whenever there are lines |
| MetroMap.ActiveLine | components/mapa-metro.tsx:14 | a missing or empty selection means L1; any other selection is kept |
| MetroMap.FindLine | components/mapa-metro.tsx:70 | the lookup finds nothing exactly when no line has the code, and otherwise finds the first line with it |
| MetroMap.EstacionesLinea | components/mapa-metro.tsx:69-72 | the map draws the stations of the first line with the active code, and none when there is no such line |
| MetroMap.DefaultMapOfFallback | components/mapa-metro.tsx:69-72 | with nothing selected, the map of the synthetic network draws the 27 stations of L1 |
| MetroMap.LiveMapStations | components/mapa-metro.tsx:69-72 | on a live snapshot the map draws nothing for an unknown code, and otherwise the first matching API line's stations, each with its name and status |
| MetroMap.EstadoTexto | components/mapa-metro.tsx:54-67 | the map's text is "Operativa" exactly for status 0 and "Desconocido" exactly for statuses outside 0–3 |
| MetroMap.EstadoColor | components/mapa-metro.tsx:39-52 | the map's colour is the status hue at shade 500 |
| MetroMap.MapAgreesWithList | components/mapa-metro.tsx:39-67 | the map and the list widget give every status the same text and the same hue |
| MetroMap.ChipLabel | components/mapa-metro.tsx:205 | the label is the code with its first `L` cut out, if it has one, and the code unchanged otherwise |
| MetroMap.ChipColor | components/mapa-metro.tsx:198-203 | a code with no line on the map is drawn gray |
| MetroMap.ChipColorIsTableColor | components/mapa-metro.tsx:198-203 | on agreeing summaries, a chip takes its code's colour from the normaliser's table whenever a line with that code is on the map, and gray otherwise |
| MetroMap.Connections | components/mapa-metro.tsx:196-208 | a station without a `lines` list shows no chip; otherwise it shows one chip per listed line |
| MetroMap.LiveStationsShowNoConnections | components/mapa-metro.tsx:196-208 | a live station never shows a connection chip, because the normaliser keeps only its first line |
| MetroMap.FallbackStationConnection | components/mapa-metro.tsx:196-208 | a synthetic station shows one chip: its own line's number in its own line's colour |
| BalanceWidget.LevelMonotone | components/saldo-bip-widget.tsx:55-59 | a larger balance never has a lower level |
| BalanceWidget.SaldoColor | components/saldo-bip-widget.tsx:55-59 | the amount is red under 1000, yellow under 3000 and green from 3000 on |
| BalanceWidget.SaldoIndicator | components/saldo-bip-widget.tsx:61-65 | the bar is 20 %, 50 % or 80 % wide, on the same thresholds and in the same hue |
| BalanceWidget.BarMatchesText | components/saldo-bip-widget.tsx:165-185 | the bar is drawn in the amount's hue, and a larger balance never draws a shorter bar |
| BalanceWidget.LevelTextAsWritten | components/saldo-bip-widget.tsx:180 | as written, a present balance gets the name of its level, and a missing one gets "Alto" because both comparisons with `undefined` are false |
| BalanceWidget.LevelTextDisagreesWithoutBalance | components/saldo-bip-widget.tsx:180 | for an answer without a balance, the level text as written says "Alto" while the amount is red and the bar is 20 % wide |
| BalanceWidget.LevelText | components/saldo-bip-widget.tsx:180 | the corrected level text names the level of the balance defaulted to 0, the value the colour and the bar use |
| BalanceWidget.LevelTextAgrees | components/saldo-bip-widget.tsx:165-185 | with the correction, the text, the colour and the bar always name the same level |
| BalanceWidget.GuardarTarjeta | components/saldo-bip-widget.tsx:31-46 | with a non-empty number and alias, one card is appended with the balance on screen; otherwise nothing changes |
| BalanceWidget.EliminarTarjeta | components/saldo-bip-widget.tsx:48-52 | deleting removes every card with that number and keeps every other card |
| BalanceWidget.EliminarKeepsOrder | components/saldo-bip-widget.tsx:48-52 | deleting from a split list deletes from both parts, so the remaining cards keep their order |
| BalanceWidget.SaveThenDelete | components/saldo-bip-widget.tsx:31-52 | saving a card and then deleting its number leaves what deleting alone leaves |
| BalanceWidget.DeleteAbsent | components/saldo-bip-widget.tsx:48-52 | deleting a number that is not saved changes nothing |
| BalanceWidget.KeepDigits | components/saldo-bip-widget.tsx:131 | the sanitiser keeps exactly the digits of the input and never lengthens it |
| BalanceWidget.KeepDigitsIdempotent | components/saldo-bip-widget.tsx:131 | sanitising twice is sanitising once |
| BalanceWidget.CardNumberIsSanitised | components/saldo-bip-widget.tsx:131 | the hook accepts a number exactly when it has 8 to 12 characters and the sanitiser leaves it unchanged |
| BalanceWidget.ButtonEnabled | components/saldo-bip-widget.tsx:137 | the button is disabled while the card channel loads and for fewer than 8 characters; with no loading flag, it is enabled exactly from 8 characters on |
| BalanceWidget.ButtonEnabledAfterQuery | components/saldo-bip-widget.tsx:137 | after every validated balance query, whatever the API answered, the button is enabled again for that number |
| BalanceWidget.QueryGate | components/saldo-bip-widget.tsx:25-29 | the form asks for a balance only from 8 characters on, and every number the hook accepts passes |
| BalanceWidget.FormQueriesAreValid | components/saldo-bip-widget.tsx:25-29 | whatever is typed into the 12-character field, a number that passes the 8-character gate also passes the hook's card check |
| BalanceWidget.FormQueryPublishes | components/saldo-bip-widget.tsx:25-29 | so a query from the form always requests the balance URL and always publishes a balance |

## Left out

- Network, timers and storage are not modelled as effects. `fetch`, `AbortController` and the 8-second timeout become the `Reply` parameter. `localStorage` becomes the `Storage` value. JSON encoding is the identity on the stored records, except that a stored metro array loses the properties attached to it, as `JSON.stringify` drops them.
- React state, `useEffect`, polling intervals and races between overlapping queries are left out. Each call is one atomic step from state to state.
- Floating-point work is left out: `getCoordenadas` and the OpenStreetMap and Waze links built from it, `toLocaleString` and `toLocaleTimeString`.
- ArrivalsWidget.FormatearDistancia: returns `None` for the kilometre branch (`toFixed(1)` on a float) instead of its text.
- Numbers in payloads are integers. NaN, fractions and precision above 2^53 are not modelled, and `parseInt` is exact on arbitrarily long digit runs.
- A `null` JSON body for the card and stop channels makes the hook throw a `TypeError` when it reads a field. The model folds that into `Malformed` and does not model the engine's message.
- A number, string or boolean JSON body reads every field as `undefined`. For the card channel that is the answer `CardData(None, Undefined, Undefined)`: a success with no balance, published and stored. For the stop channel it would publish an undefined id and name, which the string fields of `StopData` cannot express.
- Payload records are assumed to have their declared shape. A missing `stations`, `lines` or `buses` array, or a `null` service or bus, makes the hook throw (hooks/use-transantiago-datos.ts:273-285, hooks/use-transantiago-datos.ts:436-450); `ApiLine`, `ApiStation` and `Service` cannot express that.
- The `"Error desconocido"` branch for thrown values that are not `Error` objects is left out: every modelled failure is an `Error` with a message.
- The colour table lookup ignores keys inherited from `Object.prototype` (for example, a line id `constructor`).
- The `...data` spread copies every field of the card answer. Only `balance` is modelled.
- `est &&` null guards on station records are left out: stations are never `null` in the model.
- The legacy `procesarEstadoMetro` (hooks/use-transantiago-datos.ts:457-495) is left out. Nothing calls it.
- JSX-only helpers are left out: `getEstadoIcon`, loading skeletons, headers, navigation tabs, pages and the Next.js configuration.
- Navigation through `window.open`, `window.location` and geolocation is left out.
- `toUpperCase` is modelled on ASCII letters only. Every accepted stop code is ASCII, so this is exact where the request URL is built.

## Findings

| source | as written | input that shows it | evidently intended | confidence | as-written member | corrected member |
|---|---|---|---|---|---|---|
| components/saldo-bip-widget.tsx:180 | the level text compares `saldoBip.balance` directly, while the colour and bar use the balance defaulted to 0 | an API answer with no `balance` field: the text says "Alto" while the amount is red and the bar 20 % wide | the text uses the same defaulted balance as the colour and the bar | not executed | BalanceWidget.LevelTextDisagreesWithoutBalance | BalanceWidget.LevelTextAgrees |
| components/llegadas-tiempo-real.tsx:253-257 | the footer reads `isFallback` and `fromCache` from the first arrival record, which never carries them | a failed stop query served from the store: the footer says "Datos en tiempo real vía api.xor.cl" | the footer reads the flags of the stop result the hook published | not executed | ArrivalsWidget.ArrivalsFooterAlwaysLive | ArrivalsWidget.ArrivalsFooterAfterQuery |
| components/estado-metro-widget.tsx:268-277 | the detailed footer is shown only when the array has `ultimaActualizacion`, which a stored snapshot never has, so its cache branch cannot be reached | a failed metro query within two hours of a success: no footer at all | the footer is shown for every non-empty array, naming the store when the store answered | not executed | MetroWidget.DetailedFooterNeverCached | MetroWidget.DetailedFooterAfterQuery |
