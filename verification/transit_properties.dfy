/** Properties that relate several calls of the transit-data hook: what the
    cache gives back, when it expires, which provenance a published value
    carries, and which invariants of the store and the state every call keeps. */
module TransitProperties {
  import opened Js
  import opened Validation
  import opened TransitData
  import Arrivals
  import Metro

  // ---------------------------------------------------------------- provenance

  /** Where a published value came from. */
  datatype Provenance = Live | Cached | Synthetic

  /** The provenance the widgets read off the flags: `isFallback` first, then `fromCache`. */
  function SaldoProvenance(x: Saldo): Provenance {
    if x.isFallback then Synthetic else if x.fromCache then Cached else Live
  }

  function StopProvenance(x: StopResult): Provenance {
    if x.isFallback then Synthetic else if x.fromCache then Cached else Live
  }

  function SnapshotProvenance(v: Metro.Snapshot): Provenance {
    if v.isFallback == Some(true) then Synthetic else if v.fromCache == Some(true) then Cached else Live
  }

  /** What the hook itself writes to the store: live card and stop data,
      stored under the card number it belongs to, and metro line arrays whose
      summaries agree with their stations. */
  predicate ValidStorage(st: Storage) {
    && (st.ultimoSaldoBip.Some? ==>
          && !st.ultimoSaldoBip.value.data.isFallback
          && !st.ultimoSaldoBip.value.data.fromCache
          && st.ultimoSaldoBip.value.data.numeroTarjeta == st.ultimoSaldoBip.value.numeroTarjeta)
    && (forall k :: k in st.paraderos ==> !st.paraderos[k].data.isFallback && !st.paraderos[k].data.fromCache)
    && (st.estadoMetro.Some? && st.estadoMetro.value.data.Some? ==>
          forall l :: l in st.estadoMetro.value.data.value ==> Metro.WellFormedLine(l))
  }

  lemma EmptyStorageValid()
    ensures ValidStorage(EmptyStorage)
  {
  }

  /** A validated card call keeps the store valid, and what it publishes
      carries exactly the provenance of the tier that answered: live data,
      then the stored balance of the same card, then the zero fallback — so
      `isFallback` and `fromCache` are never both set. */
  lemma CardProvenance(s: Session, st: Storage, numero: string, reply: Reply<CardData>, now: int)
    requires ValidStorage(st) && IsCardNumber(numero)
    ensures var r := ConsultarSaldoBip(s, st, numero, reply, now);
      && ValidStorage(r.storage)
      && !(r.session.saldoBip.value.isFallback && r.session.saldoBip.value.fromCache)
      && SaldoProvenance(r.session.saldoBip.value) ==
           (if CardOutcome(reply).Got? then Live else if CardCacheHit(st, numero) then Cached else Synthetic)
      && r.session.saldoBip.value.numeroTarjeta == numero
  {
  }

  /** The same for a validated stop call. */
  lemma StopProvenanceLemma(s: Session, st: Storage, codigo: string, reply: Reply<StopData>, now: int)
    requires ValidStorage(st) && IsStopCode(codigo)
    ensures var r := ObtenerLlegadasParadero(s, st, codigo, reply, now);
      && ValidStorage(r.storage)
      && !(r.session.llegadas[codigo].isFallback && r.session.llegadas[codigo].fromCache)
      && StopProvenance(r.session.llegadas[codigo]) ==
           (if Receive(reply, StopHttpPrefix).Got? then Live else if StopCacheHit(st, codigo, now) then Cached else Synthetic)
  {
    var r := ObtenerLlegadasParadero(s, st, codigo, reply, now);
    if Receive(reply, StopHttpPrefix).Got? {
      assert forall k :: k in r.storage.paraderos ==> k == StopCacheKey(codigo) || k in st.paraderos;
    }
  }

  /** Every line of a snapshot is well formed. */
  predicate WellFormedSnapshot(v: Metro.Snapshot) {
    forall l :: l in v.lines ==> Metro.WellFormedLine(l)
  }

  lemma FallbackWellFormed(now: int)
    ensures WellFormedSnapshot(Metro.FallbackSnapshot(now))
  {
    Metro.FallbackLinesWellFormed();
  }

  lemma LiveWellFormed(apiLines: seq<Metro.ApiLine>, now: int)
    ensures WellFormedSnapshot(MetroLive(apiLines, now))
  {
    var lines := Metro.Normalize(apiLines);
    forall l | l in lines ensures Metro.WellFormedLine(l) {
      var i :| 0 <= i < |lines| && lines[i] == l;
    }
  }

  lemma CachedWellFormed(st: Storage, now: int)
    requires ValidStorage(st)
    ensures CachedMetroView(st, now).Some? ==> WellFormedSnapshot(CachedMetroView(st, now).value)
  {
  }

  /** A metro call keeps the store valid; what it returns and shows has
      well-formed lines and the provenance of the tier that answered. */
  lemma MetroProvenance(s: Session, st: Storage, reply: Reply<MetroData>, now: int)
    requires ValidStorage(st)
    ensures var r := ObtenerEstadoMetro(s, st, reply, now);
      && ValidStorage(r.storage)
      && WellFormedSnapshot(r.returned)
      && (forall v :: v in r.published ==> WellFormedSnapshot(v))
      && SnapshotProvenance(r.returned) ==
           (if MetroOutcome(reply).Got? then Live else if CachedMetroView(st, now).Some? then Cached else Synthetic)
  {
    var r := ObtenerEstadoMetro(s, st, reply, now);
    var cached := CachedMetroView(st, now);
    CachedWellFormed(st, now);
    FallbackWellFormed(now);
    match MetroOutcome(reply)
    case Got(apiLines) =>
      LiveWellFormed(apiLines, now);
      assert r.published == (if cached.Some? then [cached.value] else []) + [r.returned];
    case Threw(_) =>
      if cached.Some? {
        assert r.published == [cached.value];
      } else {
        assert r.published == [r.returned];
      }
  }

  // ---------------------------------------------------------------- round trips

  /** What a successful balance query stores is what a later failed query for
      the same card gives back, however much later: the card cache has no
      expiry. The value returned is the stored data itself; only the
      published copy carries `fromCache`. */
  lemma CardRoundTrip(s: Session, st: Storage, numero: string, ok: Reply<CardData>, bad: Reply<CardData>, t1: int, t2: int)
    requires IsCardNumber(numero)
    requires CardOutcome(ok).Got? && CardOutcome(bad).Threw?
    ensures var r1 := ConsultarSaldoBip(s, st, numero, ok, t1);
      var r2 := ConsultarSaldoBip(r1.session, r1.storage, numero, bad, t2);
      && r2.returned == r1.returned
      && !r2.returned.value.fromCache
      && r2.session.saldoBip == Some(r1.returned.value.(fromCache := true))
      && r2.session.errors[CardKey] == Some(CardOutcome(bad).message)
  {
  }

  /** A balance stored for one card is never served for another. */
  lemma CardCacheIsPerCard(s: Session, st: Storage, n1: string, n2: string, ok: Reply<CardData>, bad: Reply<CardData>, t1: int, t2: int)
    requires IsCardNumber(n1) && IsCardNumber(n2) && n1 != n2
    requires CardOutcome(ok).Got? && CardOutcome(bad).Threw?
    ensures var r1 := ConsultarSaldoBip(s, st, n1, ok, t1);
      var r2 := ConsultarSaldoBip(r1.session, r1.storage, n2, bad, t2);
      r2.returned == Some(CardFallback(n2, t2))
  {
  }

  /** Stop arrivals stored by a successful query come back from a failed query
      of the same code made strictly less than 30 minutes later, and not from
      one made 30 minutes later or more. */
  lemma StopRoundTrip(s: Session, st: Storage, codigo: string, ok: Reply<StopData>, bad: Reply<StopData>, t1: int, t2: int)
    requires IsStopCode(codigo)
    requires Receive(ok, StopHttpPrefix).Got? && Receive(bad, StopHttpPrefix).Threw?
    ensures var r1 := ObtenerLlegadasParadero(s, st, codigo, ok, t1);
      var r2 := ObtenerLlegadasParadero(r1.session, r1.storage, codigo, bad, t2);
      && (t2 - t1 < StopCacheTtl ==> r2.returned == r1.returned && r2.session.llegadas[codigo].fromCache)
      && (t2 - t1 >= StopCacheTtl ==> r2.returned == Some(StopFallback(codigo, t2)))
  {
  }

  /** The store key keeps the code as typed while the request upper-cases
      it: `pa433` and `PA433` ask the API for the same stop, but arrivals
      stored for one are not found for the other. */
  lemma StopCacheKeyedAsTyped(s: Session, st: Storage, a: string, b: string, ok: Reply<StopData>, bad: Reply<StopData>, t1: int, t2: int)
    requires IsStopCode(a) && IsStopCode(b) && a != b && ToUpperAscii(a) == ToUpperAscii(b)
    requires StopCacheKey(b) !in st.paraderos
    requires Receive(ok, StopHttpPrefix).Got? && Receive(bad, StopHttpPrefix).Threw?
    ensures var r1 := ObtenerLlegadasParadero(s, st, a, ok, t1);
      var r2 := ObtenerLlegadasParadero(r1.session, r1.storage, b, bad, t2);
      && r1.request == r2.request
      && r2.returned == Some(StopFallback(b, t2))
  {
    var r1 := ObtenerLlegadasParadero(s, st, a, ok, t1);
    assert StopCacheKey(a) != StopCacheKey(b) by {
      assert StopCacheKey(a)[9..] == a;
    }
    assert StopCacheKey(b) !in r1.storage.paraderos;
  }

  /** A metro snapshot stored by a successful query comes back, line for
      line, from a failed query made strictly less than 2 hours later, marked
      `fromCache`, not marked `isFallback`, without its timestamp, and with
      no error shown; later than that the synthetic snapshot is shown with
      the translated error. */
  lemma MetroRoundTrip(s: Session, st: Storage, ok: Reply<MetroData>, bad: Reply<MetroData>, t1: int, t2: int)
    requires MetroOutcome(ok).Got? && MetroOutcome(bad).Threw?
    ensures var r1 := ObtenerEstadoMetro(s, st, ok, t1);
      var r2 := ObtenerEstadoMetro(r1.session, r1.storage, bad, t2);
      && (t2 - t1 < MetroCacheTtl ==>
            && r2.returned.lines == r1.returned.lines
            && r2.returned == Metro.Snapshot(r1.returned.lines, None, None, Some(true))
            && r2.session.errors[MetroKey] == None)
      && (t2 - t1 >= MetroCacheTtl ==>
            && r2.returned == Metro.FallbackSnapshot(t2)
            && r2.session.errors[MetroKey] == Some(TranslateMetroError(MetroOutcome(bad).message)))
  {
  }

  /** Two successful metro queries with the same answer show the same lines;
      only the timestamp differs. */
  lemma MetroIdempotent(s1: Session, st1: Storage, s2: Session, st2: Storage, reply: Reply<MetroData>, t1: int, t2: int)
    requires MetroOutcome(reply).Got?
    ensures var r1 := ObtenerEstadoMetro(s1, st1, reply, t1);
      var r2 := ObtenerEstadoMetro(s2, st2, reply, t2);
      r1.returned.(ultimaActualizacion := None) == r2.returned.(ultimaActualizacion := None)
  {
  }

  // ---------------------------------------------------------------- error texts

  /** A non-2xx answer from the metro endpoint is always shown as the
      "server unavailable" text when no cache masks it. */
  lemma MetroHttpErrorText(s: Session, st: Storage, status: int, body: Body<MetroData>, now: int)
    requires !HttpOk(status) && CachedMetroView(st, now).None?
    ensures ObtenerEstadoMetro(s, st, HttpReply(status, body), now).session.errors[MetroKey] == Some(ServerDownMessage)
  {
    var m := MetroHttpPrefix + IntToString(status);
    assert StartsWith(m, "Error HTTP");
    assert 'F' !in m by {
      var d := IntToString(status);
      assert forall i :: 0 <= i < |d| ==> d[i] == '-' || IsDigit(d[i]);
      assert forall i :: 0 <= i < |m| ==> m[i] != 'F' by {
        forall i | 0 <= i < |m| ensures m[i] != 'F' {
          if i >= |MetroHttpPrefix| {
            assert m[i] == d[i - |MetroHttpPrefix|];
          }
        }
      }
    }
    NoFirstCharNoOccurrence(m, "Failed to fetch");
    assert TranslateMetroError(m) == ServerDownMessage;
  }

  /** A timeout reaches the metro error text unchanged. */
  /** With no fresh stored snapshot, the browser's "Failed to fetch" is shown
      as the no-connection message. */
  lemma MetroNetworkErrorText(s: Session, st: Storage, now: int)
    requires CachedMetroView(st, now).None?
    ensures ObtenerEstadoMetro(s, st, NetworkError("Failed to fetch"), now).session.errors[MetroKey] == Some(NoConnectionMessage)
  {
    assert Contains("Failed to fetch", "Failed to fetch") by {
      assert "Failed to fetch"[0..|"Failed to fetch"|] == "Failed to fetch";
    }
  }

  lemma MetroTimeoutText(s: Session, st: Storage, now: int)
    requires CachedMetroView(st, now).None?
    ensures ObtenerEstadoMetro(s, st, TimedOut, now).session.errors[MetroKey] == Some(TimeoutMessage)
  {
    TimeoutTextKept();
  }

  lemma TimeoutTextKept()
    ensures TranslateMetroError(TimeoutMessage) == TimeoutMessage
  {
    TimeoutTextHasNoF();
    TimeoutTextHasNoE();
    NoFirstCharNoOccurrence(TimeoutMessage, "Failed to fetch");
    NoFirstCharNoOccurrence(TimeoutMessage, "Error HTTP");
  }

  lemma TimeoutTextHasNoF()
    ensures 'F' !in TimeoutMessage
  {
  }

  lemma TimeoutTextHasNoE()
    ensures 'E' !in TimeoutMessage
  {
  }

  // ---------------------------------------------------------------- shared keys

  /** The keys of accepted stop codes never collide with the two channel keys. */
  lemma StopKeysAreNotChannelKeys(codigo: string)
    requires IsStopCode(codigo)
    ensures codigo != CardKey && codigo != MetroKey
  {
  }

  /** A rejected stop code is still used as an error key, so the code
      `"metro"` overwrites the metro channel's error slot. */
  lemma RejectedCodeReachesMetroSlot(s: Session, st: Storage, reply: Reply<StopData>, now: int)
    ensures ObtenerLlegadasParadero(s, st, MetroKey, reply, now).session.errors[MetroKey] == Some(InvalidStopMessage)
  {
    assert !IsStopCode(MetroKey);
  }
}
