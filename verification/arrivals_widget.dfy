/** The pure helpers of the stop-arrivals widget: how an arrival time and a
    distance are written, how a route is classified and coloured, the
    favourite-stop toggle, and when the "no buses" message shows. */
module ArrivalsWidget {
  import opened Js
  import Lists
  import Arrivals
  import opened TransitData
  import TransitProperties

  // ---------------------------------------------------------------- arrival time

  const ArrivingText := "Llegando"

  /** The value the `tiempo` field of an arrival holds once it reaches the widget. */
  function EtaValue(e: Arrivals.Eta): JsValue {
    match e
    case Llegando => Str(ArrivingText)
    case Minutes(m) => Num(m)
  }

  /** `formatearTiempo`: the arrival-time text. A falsy value, the arriving
      sentinel and 0 all read "Llegando"; a text that already mentions
      "min" is kept; anything else gets " min" appended. */
  function FormatearTiempo(tiempo: JsValue): (r: string)
    ensures tiempo == Str(ArrivingText) || tiempo == Num(0) || !Truthy(tiempo) ==> r == ArrivingText
    ensures r == ArrivingText || Contains(r, "min")
    ensures Truthy(tiempo) && tiempo != Str(ArrivingText) && tiempo != Num(0) ==>
      && (tiempo.Str? && Contains(tiempo.s, "min") ==> r == tiempo.s)
      && (!(tiempo.Str? && Contains(tiempo.s, "min")) ==> r == ToStr(tiempo) + " min")
  {
    if !Truthy(tiempo) || tiempo == Str(ArrivingText) || tiempo == Num(0) then ArrivingText
    else if tiempo.Str? && Contains(tiempo.s, "min") then tiempo.s
    else
      ContainsAppended(ToStr(tiempo) + " ", "min");
      assert ToStr(tiempo) + " " + "min" == ToStr(tiempo) + " min";
      ToStr(tiempo) + " min"
  }

  /** Writing a written time again changes nothing. */
  lemma FormatearTiempoIdempotent(tiempo: JsValue)
    ensures FormatearTiempo(Str(FormatearTiempo(tiempo))) == FormatearTiempo(tiempo)
  {
  }

  /** For the arrivals the hook produces, "Llegando" is shown exactly for
      the arriving sentinel, and any other text starts with a number that
      `parseInt` reads back as the minutes. */
  lemma TimeTextOfArrival(e: Arrivals.Eta)
    requires e.Llegando? || e.minutes != 0
    ensures FormatearTiempo(EtaValue(e)) == ArrivingText <==> e.Llegando?
    ensures e.Minutes? ==> ParseInt(FormatearTiempo(EtaValue(e))) == Some(e.minutes)
  {
    if e.Minutes? {
      var d := IntToString(e.minutes);
      var r := d + " min";
      assert FormatearTiempo(Num(e.minutes)) == r;
      ParseIntReadsRendered(e.minutes, " min");
      assert r[0] == d[0];
      assert d[0] == '-' || d == NatToString(e.minutes);
      assert r[0] != ArrivingText[0];
    }
  }

  // ---------------------------------------------------------------- distance

  const AtStopText := "En paradero"

  /** `formatearDistancia` for whole metres: "En paradero" under 100 m,
      "<m> m" under 1000 m. `None` stands for the kilometre branch, whose
      one-decimal rendering is floating point and not part of this model. */
  function FormatearDistancia(metros: int): (r: Option<string>)
    ensures r.None? <==> metros >= 1000
    ensures metros < 100 ==> r == Some(AtStopText)
    ensures 100 <= metros < 1000 ==> r == Some(IntToString(metros) + " m")
  {
    if metros < 100 then Some(AtStopText)
    else if metros < 1000 then Some(IntToString(metros) + " m")
    else None
  }

  /** Between 100 m and 1000 m the text is the distance itself, and `parseInt` reads it back. */
  lemma DistanceTextReadsBack(metros: int)
    requires 100 <= metros < 1000
    ensures FormatearDistancia(metros).Some?
    ensures FormatearDistancia(metros).value != AtStopText
    ensures ParseInt(FormatearDistancia(metros).value) == Some(metros)
  {
    ParseIntReadsRendered(metros, " m");
  }

  // ---------------------------------------------------------------- route type

  /** The five route types `getTipoServicio` distinguishes. */
  datatype RouteType = Electrico | Variante | Alimentador | Troncal | Normal

  /** The label the widget prints for a route type. */
  function TypeLabel(t: RouteType): string {
    match t
    case Electrico => "Eléctrico"
    case Variante => "Variante"
    case Alimentador => "Alimentador"
    case Troncal => "Troncal"
    case Normal => "Normal"
  }

  /** `getTipoServicio`: an `E` or `e` anywhere makes an electric route, then
      a `V` a variant; otherwise the leading integer decides: 400–499 feeder,
      500 and above trunk, anything else (or no number) normal. */
  function TipoServicio(servicio: string): (t: RouteType)
    ensures ('E' in servicio || 'e' in servicio) <==> t == Electrico
    ensures t == Variante <==> 'V' in servicio && 'E' !in servicio && 'e' !in servicio
    ensures 'E' !in servicio && 'e' !in servicio && 'V' !in servicio ==>
      && (ParseInt(servicio).None? ==> t == Normal)
      && (ParseInt(servicio).Some? && 400 <= ParseInt(servicio).value < 500 ==> t == Alimentador)
      && (ParseInt(servicio).Some? && ParseInt(servicio).value >= 500 ==> t == Troncal)
      && (ParseInt(servicio).Some? && ParseInt(servicio).value < 400 ==> t == Normal)
  {
    ContainsChar(servicio, 'E');
    ContainsChar(servicio, 'e');
    ContainsChar(servicio, 'V');
    if Contains(servicio, "E") || Contains(servicio, "e") then Electrico
    else if Contains(servicio, "V") then Variante
    else match ParseInt(servicio)
      case Some(n) => if n >= 400 && n < 500 then Alimentador else if n >= 500 then Troncal else Normal
      case None => Normal
  }

  /** A rendered integer is a sign and digits, so it holds no letter. */
  lemma RenderedIntegerHasNoLetters(n: int)
    ensures 'E' !in IntToString(n) && 'e' !in IntToString(n) && 'V' !in IntToString(n)
  {
    var s := IntToString(n);
    var d := if n >= 0 then NatToString(n) else NatToString(-n);
    assert forall i :: 0 <= i < |s| ==> s[i] == '-' || IsDigit(s[i]) by {
      if n < 0 {
        assert s == "-" + d;
        forall i | 0 < i < |s| ensures IsDigit(s[i]) {
          assert s[i] == d[i - 1];
        }
      }
    }
  }

  /** A route written as a plain number is classified by the number alone. */
  lemma NumberedRouteType(n: int)
    ensures TipoServicio(IntToString(n)) ==
      if 400 <= n < 500 then Alimentador else if n >= 500 then Troncal else Normal
  {
    var s := IntToString(n);
    RenderedIntegerHasNoLetters(n);
    ContainsChar(s, 'E');
    ContainsChar(s, 'e');
    ContainsChar(s, 'V');
    ParseIntRoundTrip(n);
  }

  /** A route that starts with a number and goes on with other text (`401N`,
      `510 `) is classified by that leading number, as `parseInt` reads it. */
  lemma LeadingNumberRouteType(n: int, rest: string)
    requires EndsNumber(rest) && 'E' !in rest && 'e' !in rest && 'V' !in rest
    ensures TipoServicio(IntToString(n) + rest) ==
      if 400 <= n < 500 then Alimentador else if n >= 500 then Troncal else Normal
  {
    var s := IntToString(n) + rest;
    RenderedIntegerHasNoLetters(n);
    assert 'E' !in s && 'e' !in s && 'V' !in s;
    ParseIntReadsRendered(n, rest);
  }

  /** `getColorServicio`: the `switch` on the type label, purple by default. */
  function ColorServicio(servicio: string): (c: string)
    ensures c == "bg-purple-500" <==> TipoServicio(servicio) == Normal
  {
    var tipo := TypeLabel(TipoServicio(servicio));
    if tipo == "Troncal" then "bg-red-500"
    else if tipo == "Alimentador" then "bg-yellow-500"
    else if tipo == "Eléctrico" then "bg-green-500"
    else if tipo == "Variante" then "bg-blue-500"
    else "bg-purple-500"
  }

  /** Routes of different types never share a colour, so the colour tells the type. */
  lemma ColorTellsType(a: string, b: string)
    ensures ColorServicio(a) == ColorServicio(b) <==> TipoServicio(a) == TipoServicio(b)
  {
  }

  /** The badge on a route: the first letter of its type, shown unless the type is normal. */
  function TypeBadge(servicio: string): (r: Option<char>)
    ensures r.None? <==> TipoServicio(servicio) == Normal
  {
    var tipo := TipoServicio(servicio);
    if TypeLabel(tipo) != "Normal" then Some(TypeLabel(tipo)[0]) else None
  }

  /** The four badges are distinct letters: `E`, `V`, `A`, `T`. */
  lemma BadgeTellsType(a: string, b: string)
    requires TypeBadge(a).Some? && TypeBadge(b).Some?
    ensures TypeBadge(a) == TypeBadge(b) <==> TipoServicio(a) == TipoServicio(b)
  {
  }

  // ---------------------------------------------------------------- favourites

  /** `toggleFavorito`: remove every occurrence of the stop if it is a
      favourite, append it at the end otherwise. */
  function ToggleFavorito(favoritos: seq<string>, codigo: string): (r: seq<string>)
    ensures codigo in r <==> codigo !in favoritos
    ensures codigo !in favoritos ==> r == favoritos + [codigo]
    ensures codigo in favoritos ==> r == Lists.Without(favoritos, codigo)
    ensures forall c :: c != codigo ==> multiset(r)[c] == multiset(favoritos)[c]
  {
    Lists.Toggle(favoritos, codigo)
  }

  /** Removing a favourite keeps the others in their order: the list splits
      at any point into two parts that are filtered separately. */
  lemma ToggleKeepsOrder(front: seq<string>, back: seq<string>, codigo: string)
    requires codigo in front + back
    ensures ToggleFavorito(front + back, codigo) == Lists.Without(front, codigo) + Lists.Without(back, codigo)
  {
    Lists.WithoutConcat(front, back, codigo);
  }

  /** Adding a favourite and toggling it again restores the list. */
  lemma FavoriteToggleTwice(favoritos: seq<string>, codigo: string)
    requires codigo !in favoritos
    ensures ToggleFavorito(ToggleFavorito(favoritos, codigo), codigo) == favoritos
  {
    Lists.ToggleTwice(favoritos, codigo);
  }

  // ---------------------------------------------------------------- empty state

  /** `loading[code]`: a missing flag reads as falsy. */
  predicate LoadingOf(s: Session, key: string) {
    key in s.loading && s.loading[key]
  }

  /** `errors[code]` is truthy: set and non-empty. */
  predicate ErrorShown(s: Session, key: string) {
    key in s.errors && s.errors[key].Some? && s.errors[key].value != ""
  }

  /** What the widget keeps after a query: the results of a returned stop,
      or the previous list when the hook returned nothing. */
  function ShownArrivals(previous: seq<Arrivals.Arrival>, returned: Option<StopResult>): seq<Arrivals.Arrival> {
    if returned.Some? then returned.value.results else previous
  }

  /** The "no buses" message: no arrivals, not loading, no error for this stop. */
  predicate ShowsEmptyState(llegadas: seq<Arrivals.Arrival>, s: Session, codigo: string)
    ensures ShowsEmptyState(llegadas, s, codigo) ==> |llegadas| == 0 && !ErrorShown(s, codigo)
    ensures |llegadas| > 0 || LoadingOf(s, codigo) ==> !ShowsEmptyState(llegadas, s, codigo)
  {
    |llegadas| == 0 && !LoadingOf(s, codigo) && !ErrorShown(s, codigo)
  }

  /** After a stop answers, the message shows exactly when it reported no
      bus of a listed service; after a failure with a message it never
      shows, since the error is shown instead. */
  lemma EmptyStateAfterQuery(s: Session, st: Storage, codigo: string, reply: Reply<StopData>, now: int, previous: seq<Arrivals.Arrival>)
    requires Validation.IsStopCode(codigo)
    ensures var r := ObtenerLlegadasParadero(s, st, codigo, reply, now);
      var live := Receive(reply, StopHttpPrefix);
      && (live.Got? ==>
            (ShowsEmptyState(ShownArrivals(previous, r.returned), r.session, codigo) <==>
               live.value.services.None? || Arrivals.BusCount(live.value.services.value) == 0))
      && (live.Threw? && live.message != "" ==>
            !ShowsEmptyState(ShownArrivals(previous, r.returned), r.session, codigo) && ErrorShown(r.session, codigo))
  {
  }

  // ---------------------------------------------------------------- provenance footer

  const LiveText := "Datos en tiempo real vía api.xor.cl"
  const CacheText := "Datos desde caché local"
  const SyntheticText := "Sin datos en tiempo real"

  /** Property `key` of an arrival record: the record has exactly the seven
      fields the hook writes, and any other key reads `undefined`. */
  function ArrivalField(a: Arrivals.Arrival, key: string): JsValue {
    if key == "servicio" then Str(a.servicio)
    else if key == "patente" then Str(a.patente)
    else if key == "tiempo" then EtaValue(a.tiempo)
    else if key == "tiempoMax" then Num(a.tiempoMax)
    else if key == "distancia" then Num(a.distancia)
    else if key == "destino" then Str(a.destino)
    else if key == "estado" then Str(a.estado)
    else Undefined
  }

  /** The footer as written: the provenance flags are looked up on the first arrival. */
  function ArrivalsFooterAsWritten(llegadas: seq<Arrivals.Arrival>): (t: string)
    ensures |llegadas| == 0 ==> t == LiveText
    ensures t == LiveText || t == CacheText || t == SyntheticText
  {
    if |llegadas| > 0 && Truthy(ArrivalField(llegadas[0], "isFallback")) then SyntheticText
    else if |llegadas| > 0 && Truthy(ArrivalField(llegadas[0], "fromCache")) then CacheText
    else LiveText
  }

  /** Arrival records carry no provenance flags, so the footer claims live
      data even when the hook has just published cached arrivals. */
  lemma ArrivalsFooterAlwaysLive(s: Session, st: Storage, codigo: string, reply: Reply<StopData>, now: int, previous: seq<Arrivals.Arrival>)
    requires Validation.IsStopCode(codigo)
    requires Receive(reply, StopHttpPrefix).Threw? && StopCacheHit(st, codigo, now)
    ensures var r := ObtenerLlegadasParadero(s, st, codigo, reply, now);
      && r.session.llegadas[codigo].fromCache
      && ArrivalsFooterAsWritten(ShownArrivals(previous, r.returned)) == LiveText
  {
  }

  /** The footer read from the stop result the hook published for this code. */
  function ArrivalsFooter(published: StopResult): (t: string)
    ensures t == SyntheticText <==> published.isFallback
  {
    if published.isFallback then SyntheticText
    else if published.fromCache then CacheText
    else LiveText
  }

  /** Read from the published result, the footer names the tier that answered. */
  lemma ArrivalsFooterAfterQuery(s: Session, st: Storage, codigo: string, reply: Reply<StopData>, now: int)
    requires TransitProperties.ValidStorage(st) && Validation.IsStopCode(codigo)
    ensures ArrivalsFooter(ObtenerLlegadasParadero(s, st, codigo, reply, now).session.llegadas[codigo]) ==
      if Receive(reply, StopHttpPrefix).Got? then LiveText
      else if StopCacheHit(st, codigo, now) then CacheText
      else SyntheticText
  {
    TransitProperties.StopProvenanceLemma(s, st, codigo, reply, now);
  }
}
