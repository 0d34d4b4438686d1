/** The transit-data hook (`useTransantiagoDatos`): three query channels —
    card balance, stop arrivals, metro network — each validating its input,
    asking the live API, and falling back to the local cache and then to
    synthetic data. Every channel is a pure function of the hook's state
    (`Session`), the local store (`Storage`), what the API answered (`Reply`)
    and the clock (`now`, in milliseconds); it returns the new state and
    store, the value the call resolves to and the URL it requested. */
module TransitData {
  import opened Js
  import opened Validation
  import Arrivals
  import Metro

  // ---------------------------------------------------------------- constants

  /** Keys of the shared loading and error maps; stop codes are keys too. */
  const CardKey := "saldoBip"
  const MetroKey := "metro"

  const InvalidCardMessage := "Número de tarjeta inválido"
  const InvalidStopMessage := "Código de parada inválido"
  const TimeoutMessage := "La solicitud tomó demasiado tiempo"
  const BadFormatMessage := "Formato de datos inesperado"
  const NoConnectionMessage := "No se pudo conectar con el servidor. Verifique su conexión a internet."
  const ServerDownMessage := "El servidor no está disponible en este momento. Intente más tarde."
  const FallbackStopName := "Sin datos disponibles"

  const BalanceUrl := "https://api.xor.cl/red/balance/"
  const BusStopUrl := "https://api.xor.cl/red/bus-stop/"
  const MetroUrl := "https://api.xor.cl/red/metro-network"

  const CardHttpPrefix := "Error consultando saldo: "
  const StopHttpPrefix := "Error obteniendo datos del paradero: "
  const MetroHttpPrefix := "Error HTTP: "

  /** Stop arrivals are reused from the cache for 30 minutes, the metro snapshot for 2 hours. */
  const StopCacheTtl := 30 * 60 * 1000
  const MetroCacheTtl := 2 * 60 * 60 * 1000

  // ---------------------------------------------------------------- live replies

  /** `response.json()`: a parsed body or the parse error's message. */
  datatype Body<T> = Parsed(value: T) | Malformed(message: string)

  /** What `fetch` produced: the 8-second abort fired, the request failed
      (the browser's message, e.g. "Failed to fetch"), or a response arrived. */
  datatype Reply<T> = TimedOut | NetworkError(message: string) | HttpReply(status: int, body: Body<T>)

  /** `response.ok`. */
  predicate HttpOk(status: int) {
    200 <= status <= 299
  }

  /** The live stage's result: a value, or the message of the `Error` thrown. */
  datatype Live<T> = Got(value: T) | Threw(message: string)

  /** The part every channel shares: an abort becomes the timeout message, a
      network error keeps its message, a non-2xx status becomes the channel's
      prefix followed by the status, and an unparsable body its parse error. */
  function Receive<T>(reply: Reply<T>, httpPrefix: string): (l: Live<T>)
    ensures l.Got? <==> reply.HttpReply? && HttpOk(reply.status) && reply.body.Parsed?
    ensures l.Got? ==> l.value == reply.body.value
    ensures reply.TimedOut? ==> l == Threw(TimeoutMessage)
    ensures reply.HttpReply? && !HttpOk(reply.status) ==> l == Threw(httpPrefix + IntToString(reply.status))
    ensures reply.NetworkError? ==> l == Threw(reply.message)
    ensures reply.HttpReply? && HttpOk(reply.status) && reply.body.Malformed? ==> l == Threw(reply.body.message)
  {
    match reply
    case TimedOut => Threw(TimeoutMessage)
    case NetworkError(m) => Threw(m)
    case HttpReply(status, body) =>
      if !HttpOk(status) then Threw(httpPrefix + IntToString(status))
      else match body
        case Malformed(m) => Threw(m)
        case Parsed(v) => Got(v)
  }

  // ---------------------------------------------------------------- state

  /** A card balance as the hook publishes it. */
  datatype Saldo = Saldo(balance: Option<int>, numeroTarjeta: string, consultadoEn: int, isFallback: bool, fromCache: bool)

  /** The `ultimoSaldoBip` store entry. */
  datatype CardCacheEntry = CardCacheEntry(numeroTarjeta: string, data: Saldo)

  /** A stop's arrivals as the hook publishes them. */
  datatype StopResult = StopResult(
    id: string,
    name: string,
    status: int,
    results: seq<Arrivals.Arrival>,
    ultimaActualizacion: int,
    isFallback: bool,
    fromCache: bool)

  /** A `paradero_<code>` store entry. */
  datatype StopCacheEntry = StopCacheEntry(data: StopResult, timestamp: int)

  /** The `estadoMetro` store entry: the array of lines (`None` when what is
      stored is not an array) and when it was stored. */
  datatype MetroCacheEntry = MetroCacheEntry(data: Option<seq<Metro.Line>>, timestamp: int)

  /** The local store as the three channels use it. An entry that is absent
      or does not parse is `None` / not in the map. */
  datatype Storage = Storage(
    ultimoSaldoBip: Option<CardCacheEntry>,
    paraderos: map<string, StopCacheEntry>,
    estadoMetro: Option<MetroCacheEntry>)

  /** The hook's state: the published values, and the loading and error maps
      keyed by `saldoBip`, `metro` or a stop code (`None` in `errors` is `null`). */
  datatype Session = Session(
    saldoBip: Option<Saldo>,
    estadoMetro: Metro.Snapshot,
    llegadas: map<string, StopResult>,
    loading: map<string, bool>,
    errors: map<string, Option<string>>)

  const InitialSession := Session(None, Metro.EmptySnapshot, map[], map[], map[])
  const EmptyStorage := Storage(None, map[], None)

  /** The outcome of one call to a card or stop channel. */
  datatype Call<T> = Call(session: Session, storage: Storage, returned: Option<T>, request: Option<string>)

  /** The outcome of one metro call, with every snapshot published on the way, in order. */
  datatype MetroCall = MetroCall(session: Session, storage: Storage, returned: Metro.Snapshot, published: seq<Metro.Snapshot>)

  /** Entering a validated call: the key is loading and its error is cleared. */
  function Start(s: Session, key: string): (t: Session)
    ensures t.loading == s.loading[key := true] && t.errors == s.errors[key := None]
    ensures t.saldoBip == s.saldoBip && t.estadoMetro == s.estadoMetro && t.llegadas == s.llegadas
  {
    s.(loading := s.loading[key := true], errors := s.errors[key := None])
  }

  /** The `finally` block: the key stops loading whatever happened. */
  function Finish(s: Session, key: string): (t: Session)
    ensures t.loading == s.loading[key := false] && t.errors == s.errors
    ensures t.saldoBip == s.saldoBip && t.estadoMetro == s.estadoMetro && t.llegadas == s.llegadas
  {
    s.(loading := s.loading[key := false])
  }

  function Fail(s: Session, key: string, message: string): Session {
    s.(errors := s.errors[key := Some(message)])
  }

  // ---------------------------------------------------------------- card balance

  /** The balance endpoint's body. */
  datatype CardData = CardData(balance: Option<int>, statusCode: JsValue, statusDescription: JsValue)

  /** `data.status_code && data.status_code !== 0`. */
  predicate EmbeddedError(code: JsValue) {
    Truthy(code) && code != Num(0)
  }

  /** The `!== 0` half of the test adds nothing: a truthy status code is never 0. */
  lemma EmbeddedErrorIsTruthy(code: JsValue)
    ensures EmbeddedError(code) <==> Truthy(code)
  {
  }

  /** `data.status_description || \`Error código ${data.status_code}\``. */
  function EmbeddedErrorMessage(d: CardData): (r: string)
    ensures Truthy(d.statusDescription) ==> r == ToStr(d.statusDescription)
    ensures !Truthy(d.statusDescription) ==> StartsWith(r, "Error código ") && r[13..] == ToStr(d.statusCode)
  {
    if Truthy(d.statusDescription) then ToStr(d.statusDescription) else "Error código " + ToStr(d.statusCode)
  }

  /** The card channel's live stage, including the embedded API error. */
  function CardOutcome(reply: Reply<CardData>): (l: Live<CardData>)
    ensures l.Got? <==> reply.HttpReply? && HttpOk(reply.status) && reply.body.Parsed? && !Truthy(reply.body.value.statusCode)
    ensures l.Got? ==> l.value == reply.body.value
    ensures reply.HttpReply? && HttpOk(reply.status) && reply.body.Parsed? && Truthy(reply.body.value.statusCode) ==>
      l == Threw(EmbeddedErrorMessage(reply.body.value))
    ensures !(reply.HttpReply? && HttpOk(reply.status) && reply.body.Parsed?) ==> l == Receive(reply, CardHttpPrefix)
  {
    match Receive(reply, CardHttpPrefix)
    case Threw(m) => Threw(m)
    case Got(d) => if EmbeddedError(d.statusCode) then Threw(EmbeddedErrorMessage(d)) else Got(d)
  }

  /** The stored balance is used only for the card number it was stored for, however old it is. */
  predicate CardCacheHit(st: Storage, numero: string)
    ensures CardCacheHit(st, numero) ==> st.ultimoSaldoBip.Some? && st.ultimoSaldoBip.value.numeroTarjeta == numero
  {
    st.ultimoSaldoBip.Some? && st.ultimoSaldoBip.value.numeroTarjeta == numero
  }

  /** The store holds one balance, so at most one card number can hit it. */
  lemma CardCacheServesOneCard(st: Storage, a: string, b: string)
    requires CardCacheHit(st, a) && CardCacheHit(st, b)
    ensures a == b
  {
  }

  /** The zero balance published when neither the API nor the cache can answer. */
  function CardFallback(numero: string, now: int): (r: Saldo)
    ensures r.balance == Some(0) && r.numeroTarjeta == numero && r.consultadoEn == now
    ensures r.isFallback && !r.fromCache
  {
    Saldo(Some(0), numero, now, true, false)
  }

  /** `consultarSaldoBip(numero)`. */
  function ConsultarSaldoBip(s: Session, st: Storage, numero: string, reply: Reply<CardData>, now: int): (r: Call<Saldo>)
    // validation: a malformed number is rejected before any request, without touching `loading`
    ensures r.request.Some? <==> IsCardNumber(numero)
    ensures r.returned.Some? <==> IsCardNumber(numero)
    ensures !IsCardNumber(numero) ==>
      && r.session.errors == s.errors[CardKey := Some(InvalidCardMessage)]
      && r.session.loading == s.loading && r.session.saldoBip == s.saldoBip && r.storage == st
    // every validated call requests the card's URL and ends not loading
    ensures IsCardNumber(numero) ==>
      && r.request == Some(BalanceUrl + numero)
      && r.session.loading == s.loading[CardKey := false]
      && r.session.saldoBip.Some?
      && r.session.errors.Keys == s.errors.Keys + {CardKey}
      && (forall k :: k in s.errors && k != CardKey ==> r.session.errors[k] == s.errors[k])
    // live success: published and returned as live data, stored, no error
    ensures IsCardNumber(numero) && CardOutcome(reply).Got? ==>
      && r.returned == r.session.saldoBip
      && r.returned.value == Saldo(reply.body.value.balance, numero, now, false, false)
      && r.storage == st.(ultimoSaldoBip := Some(CardCacheEntry(numero, r.returned.value)))
      && r.session.errors[CardKey] == None
    // failure with a stored balance for this card: the stored data, published with `fromCache`
    ensures IsCardNumber(numero) && CardOutcome(reply).Threw? && CardCacheHit(st, numero) ==>
      && r.returned == Some(st.ultimoSaldoBip.value.data)
      && r.session.saldoBip == Some(st.ultimoSaldoBip.value.data.(fromCache := true))
    // failure otherwise: a zero balance marked `isFallback`
    ensures IsCardNumber(numero) && CardOutcome(reply).Threw? && !CardCacheHit(st, numero) ==>
      r.returned == r.session.saldoBip == Some(CardFallback(numero, now))
    // every failure records its message and leaves the store alone
    ensures IsCardNumber(numero) && CardOutcome(reply).Threw? ==>
      r.session.errors[CardKey] == Some(CardOutcome(reply).message) && r.storage == st
    ensures r.session.llegadas == s.llegadas && r.session.estadoMetro == s.estadoMetro
  {
    if !IsCardNumber(numero) then
      Call(Fail(s, CardKey, InvalidCardMessage), st, None, None)
    else
      var started := Start(s, CardKey);
      var settled :=
        match CardOutcome(reply)
        case Got(d) =>
          var saldo := Saldo(d.balance, numero, now, false, false);
          Call(started.(saldoBip := Some(saldo)), st.(ultimoSaldoBip := Some(CardCacheEntry(numero, saldo))), Some(saldo), None)
        case Threw(message) =>
          var failed := Fail(started, CardKey, message);
          if CardCacheHit(st, numero) then
            var data := st.ultimoSaldoBip.value.data;
            Call(failed.(saldoBip := Some(data.(fromCache := true))), st, Some(data), None)
          else
            Call(failed.(saldoBip := Some(CardFallback(numero, now))), st, Some(CardFallback(numero, now)), None);
      Call(Finish(settled.session, CardKey), settled.storage, settled.returned, Some(BalanceUrl + numero))
  }

  // ---------------------------------------------------------------- stop arrivals

  /** The bus-stop endpoint's body. */
  datatype StopData = StopData(id: string, name: string, statusCode: int, services: Option<seq<Arrivals.Service>>)

  /** The store key of a stop: the code exactly as the caller typed it. */
  function StopCacheKey(codigo: string): (k: string)
    ensures StartsWith(k, "paradero_") && k[9..] == codigo
  {
    "paradero_" + codigo
  }

  /** A stored stop entry is used while it is strictly younger than 30 minutes. */
  predicate StopCacheHit(st: Storage, codigo: string, now: int)
    ensures StopCacheHit(st, codigo, now) ==> StopCacheKey(codigo) in st.paraderos
    ensures StopCacheKey(codigo) in st.paraderos ==>
      (StopCacheHit(st, codigo, now) <==> now < st.paraderos[StopCacheKey(codigo)].timestamp + 1_800_000)
  {
    StopCacheKey(codigo) in st.paraderos && now - st.paraderos[StopCacheKey(codigo)].timestamp < StopCacheTtl
  }

  /** Freshness only runs out: an entry fresh now was fresh at every earlier time. */
  lemma StopCacheHitEarlier(st: Storage, codigo: string, earlier: int, now: int)
    requires earlier <= now && StopCacheHit(st, codigo, now)
    ensures StopCacheHit(st, codigo, earlier)
  {
  }

  /** The empty result published when neither the API nor the cache can answer. */
  function StopFallback(codigo: string, now: int): (r: StopResult)
    ensures r.id == codigo && r.name == FallbackStopName && r.status == 0
    ensures r.results == [] && r.ultimaActualizacion == now
    ensures r.isFallback && !r.fromCache
  {
    StopResult(codigo, FallbackStopName, 0, [], now, true, false)
  }

  /** The published form of a live answer. */
  function StopLive(d: StopData, now: int): (r: StopResult)
    ensures r.id == d.id && r.name == d.name && r.status == d.statusCode && r.ultimaActualizacion == now
    ensures !r.isFallback && !r.fromCache
    ensures Arrivals.Sorted(r.results)
    ensures d.services.Some? ==> multiset(r.results) == multiset(Arrivals.Flatten(d.services.value))
    ensures d.services.None? ==> r.results == []
  {
    StopResult(d.id, d.name, d.statusCode, Arrivals.ProcesarServicios(d.services), now, false, false)
  }

  /** What a validated stop call settles on, before the `finally` block. */
  function StopSettle(started: Session, st: Storage, codigo: string, live: Live<StopData>, now: int): (c: Call<StopResult>)
    ensures c.returned.Some? && codigo in c.session.llegadas
    ensures c.session.llegadas == started.llegadas[codigo := c.session.llegadas[codigo]]
    ensures c.session.loading == started.loading
    ensures c.session.saldoBip == started.saldoBip && c.session.estadoMetro == started.estadoMetro
    ensures live.Got? ==>
      && c.returned.value == c.session.llegadas[codigo] == StopLive(live.value, now)
      && c.storage == st.(paraderos := st.paraderos[StopCacheKey(codigo) := StopCacheEntry(c.returned.value, now)])
      && c.session.errors == started.errors
    ensures live.Threw? ==> c.session.errors == started.errors[codigo := Some(live.message)] && c.storage == st
    ensures live.Threw? && StopCacheHit(st, codigo, now) ==>
      && c.returned.value == st.paraderos[StopCacheKey(codigo)].data
      && c.session.llegadas[codigo] == c.returned.value.(fromCache := true)
    ensures live.Threw? && !StopCacheHit(st, codigo, now) ==>
      c.returned.value == c.session.llegadas[codigo] == StopFallback(codigo, now)
  {
    match live
    case Got(d) =>
      var procesados := StopLive(d, now);
      Call(
        started.(llegadas := started.llegadas[codigo := procesados]),
        st.(paraderos := st.paraderos[StopCacheKey(codigo) := StopCacheEntry(procesados, now)]),
        Some(procesados), None)
    case Threw(message) =>
      var failed := Fail(started, codigo, message);
      if StopCacheHit(st, codigo, now) then
        var data := st.paraderos[StopCacheKey(codigo)].data;
        Call(failed.(llegadas := failed.llegadas[codigo := data.(fromCache := true)]), st, Some(data), None)
      else
        var fallback := StopFallback(codigo, now);
        Call(failed.(llegadas := failed.llegadas[codigo := fallback]), st, Some(fallback), None)
  }

  /** `obtenerLlegadasParadero(codigo)`. */
  function ObtenerLlegadasParadero(s: Session, st: Storage, codigo: string, reply: Reply<StopData>, now: int): (r: Call<StopResult>)
    // validation: a malformed code is rejected before any request, its error kept under that very code
    ensures r.request.Some? <==> IsStopCode(codigo)
    ensures r.returned.Some? <==> IsStopCode(codigo)
    ensures !IsStopCode(codigo) ==>
      && r.session.errors == s.errors[codigo := Some(InvalidStopMessage)]
      && r.session.loading == s.loading && r.session.llegadas == s.llegadas && r.storage == st
    // every validated call asks for the upper-cased code and ends not loading
    ensures IsStopCode(codigo) ==>
      && r.request == Some(BusStopUrl + ToUpperAscii(codigo))
      && r.session.loading == s.loading[codigo := false]
      && codigo in r.session.llegadas
      && r.session.llegadas == s.llegadas[codigo := r.session.llegadas[codigo]]
      && codigo in r.session.errors && r.session.errors == s.errors[codigo := r.session.errors[codigo]]
    // live success: the processed arrivals, published and stored under `paradero_<codigo>` stamped `now`
    ensures IsStopCode(codigo) && Receive(reply, StopHttpPrefix).Got? ==>
      && r.returned == Some(r.session.llegadas[codigo])
      && r.returned.value == StopLive(reply.body.value, now)
      && r.storage == st.(paraderos := st.paraderos[StopCacheKey(codigo) := StopCacheEntry(r.returned.value, now)])
      && r.session.errors[codigo] == None
    // failure with a fresh entry: the stored data, published with `fromCache`
    ensures IsStopCode(codigo) && Receive(reply, StopHttpPrefix).Threw? && StopCacheHit(st, codigo, now) ==>
      && r.returned == Some(st.paraderos[StopCacheKey(codigo)].data)
      && r.session.llegadas[codigo] == st.paraderos[StopCacheKey(codigo)].data.(fromCache := true)
    // failure otherwise: no arrivals, a placeholder name, marked `isFallback`
    ensures IsStopCode(codigo) && Receive(reply, StopHttpPrefix).Threw? && !StopCacheHit(st, codigo, now) ==>
      && r.returned == Some(r.session.llegadas[codigo])
      && r.returned.value == StopFallback(codigo, now)
    ensures IsStopCode(codigo) && Receive(reply, StopHttpPrefix).Threw? ==>
      r.session.errors[codigo] == Some(Receive(reply, StopHttpPrefix).message) && r.storage == st
    ensures r.session.saldoBip == s.saldoBip && r.session.estadoMetro == s.estadoMetro
  {
    if !IsStopCode(codigo) then
      Call(Fail(s, codigo, InvalidStopMessage), st, None, None)
    else
      var settled := StopSettle(Start(s, codigo), st, codigo, Receive(reply, StopHttpPrefix), now);
      Call(Finish(settled.session, codigo), settled.storage, settled.returned, Some(BusStopUrl + ToUpperAscii(codigo)))
  }

  // ---------------------------------------------------------------- metro network

  /** The metro-network endpoint's body: `null`, or an object whose `lines`
      is an array (`Some`) or anything else (`None`). */
  datatype MetroData = NullData | MetroData(lines: Option<seq<Metro.ApiLine>>)

  /** The metro channel's live stage: the body must have an array `lines`; an empty array is accepted. */
  function MetroOutcome(reply: Reply<MetroData>): (l: Live<seq<Metro.ApiLine>>)
    ensures l.Got? <==>
      reply.HttpReply? && HttpOk(reply.status) && reply.body.Parsed?
      && reply.body.value.MetroData? && reply.body.value.lines.Some?
    ensures l.Got? ==> l.value == reply.body.value.lines.value
  {
    match Receive(reply, MetroHttpPrefix)
    case Threw(m) => Threw(m)
    case Got(d) => if d.NullData? || d.lines.None? then Threw(BadFormatMessage) else Got(d.lines.value)
  }

  /** The stored snapshot, when it is strictly younger than 2 hours and is an
      array: the bare array (the properties attached to it do not survive
      `JSON.stringify`) marked `fromCache`. */
  function CachedMetroView(st: Storage, now: int): (v: Option<Metro.Snapshot>)
    ensures v.Some? <==>
      st.estadoMetro.Some? && now - st.estadoMetro.value.timestamp < MetroCacheTtl && st.estadoMetro.value.data.Some?
    ensures v.Some? ==> v.value == Metro.Snapshot(st.estadoMetro.value.data.value, None, None, Some(true))
  {
    match st.estadoMetro
    case None => None
    case Some(e) =>
      if now - e.timestamp < MetroCacheTtl && e.data.Some? then Some(Metro.Snapshot(e.data.value, None, None, Some(true)))
      else None
  }

  /** The friendlier text shown for two known failures; anything else verbatim. */
  function TranslateMetroError(message: string): (t: string)
    ensures Contains(message, "Failed to fetch") ==> t == NoConnectionMessage
    ensures !Contains(message, "Failed to fetch") && Contains(message, "Error HTTP") ==> t == ServerDownMessage
    ensures !Contains(message, "Failed to fetch") && !Contains(message, "Error HTTP") ==> t == message
  {
    if Contains(message, "Failed to fetch") then NoConnectionMessage
    else if Contains(message, "Error HTTP") then ServerDownMessage
    else message
  }

  /** The live snapshot published after a successful request. */
  function MetroLive(apiLines: seq<Metro.ApiLine>, now: int): (v: Metro.Snapshot)
    ensures v.lines == Metro.Normalize(apiLines)
    ensures v.ultimaActualizacion == Some(now) && v.isFallback == Some(false) && v.fromCache.None?
  {
    Metro.Snapshot(Metro.Normalize(apiLines), Some(now), Some(false), None)
  }

  /** `obtenerEstadoMetro()`. */
  function ObtenerEstadoMetro(s: Session, st: Storage, reply: Reply<MetroData>, now: int): (r: MetroCall)
    ensures r.session.loading == s.loading[MetroKey := false]
    ensures r.session.errors.Keys == s.errors.Keys + {MetroKey}
    ensures forall k :: k in s.errors && k != MetroKey ==> r.session.errors[k] == s.errors[k]
    ensures r.session.saldoBip == s.saldoBip && r.session.llegadas == s.llegadas
    // a usable cache is shown first, before the request settles
    ensures CachedMetroView(st, now).Some? ==> |r.published| > 0 && r.published[0] == CachedMetroView(st, now).value
    ensures |r.published| > 0 ==> r.session.estadoMetro == r.published[|r.published| - 1]
    ensures r.session.estadoMetro == r.returned
    // live success: normalised lines, stamped and stored
    ensures MetroOutcome(reply).Got? ==>
      && r.returned == MetroLive(MetroOutcome(reply).value, now)
      && r.storage == st.(estadoMetro := Some(MetroCacheEntry(Some(r.returned.lines), now)))
      && r.session.errors[MetroKey] == None
    // failure masked by a usable cache: the cached view, and no error shown
    ensures MetroOutcome(reply).Threw? && CachedMetroView(st, now).Some? ==>
      && r.returned == CachedMetroView(st, now).value
      && r.session.errors[MetroKey] == None
      && r.storage == st
    // failure otherwise: the synthetic snapshot and a translated error
    ensures MetroOutcome(reply).Threw? && CachedMetroView(st, now).None? ==>
      && r.returned == Metro.FallbackSnapshot(now)
      && r.session.errors[MetroKey] == Some(TranslateMetroError(MetroOutcome(reply).message))
      && r.storage == st
  {
    var started := Start(s, MetroKey);
    var cached := CachedMetroView(st, now);
    var early := if cached.Some? then [cached.value] else [];
    var shown := if cached.Some? then started.(estadoMetro := cached.value) else started;
    match MetroOutcome(reply)
    case Got(apiLines) =>
      var live := MetroLive(apiLines, now);
      MetroCall(
        Finish(shown.(estadoMetro := live), MetroKey),
        st.(estadoMetro := Some(MetroCacheEntry(Some(live.lines), now))),
        live,
        early + [live])
    case Threw(message) =>
      if cached.Some? then
        MetroCall(Finish(shown, MetroKey), st, cached.value, early)
      else
        var fallback := Metro.FallbackSnapshot(now);
        MetroCall(
          Finish(Fail(shown, MetroKey, TranslateMetroError(message)).(estadoMetro := fallback), MetroKey),
          st, fallback, [fallback])
  }
}
