/** The pure helpers of the metro-status widget: expanding a line, the
    status texts and colours, the "all / problems only" filters, the compact
    six-line view and the provenance footer. */
module MetroWidget {
  import opened Js
  import Lists
  import Metro
  import StationStatus
  import opened TransitData
  import TransitProperties

  // ---------------------------------------------------------------- expanded lines

  /** `toggleLinea`: collapse an expanded line (every occurrence), expand a collapsed one. */
  function ToggleLinea(expandidas: seq<string>, linea: string): (r: seq<string>)
    ensures linea in r <==> linea !in expandidas
    ensures linea !in expandidas ==> r == expandidas + [linea]
    ensures linea in expandidas ==> r == Lists.Without(expandidas, linea)
  {
    Lists.Toggle(expandidas, linea)
  }

  /** Expanding a line and collapsing it again restores the expanded set. */
  lemma ToggleLineaTwice(expandidas: seq<string>, linea: string)
    requires linea !in expandidas
    ensures ToggleLinea(ToggleLinea(expandidas, linea), linea) == expandidas
  {
    Lists.ToggleTwice(expandidas, linea);
  }

  // ---------------------------------------------------------------- status texts

  const OperationalText := "Operativa"
  const UnknownText := "Desconocido"

  /** `getEstadoTexto`. */
  function EstadoTexto(estado: int): (t: string)
    ensures t == OperationalText <==> estado == 0
    ensures t == UnknownText <==> !(0 <= estado <= 3)
  {
    if estado == 0 then OperationalText
    else if estado == 1 then "Cerrada Temporalmente"
    else if estado == 2 then "No Habilitada"
    else if estado == 3 then "Accesos Cerrados"
    else UnknownText
  }

  /** The text names the status: different known statuses read differently. */
  lemma EstadoTextoTellsStatus(a: int, b: int)
    ensures EstadoTexto(a) == EstadoTexto(b) <==> a == b || (!(0 <= a <= 3) && !(0 <= b <= 3))
  {
  }

  /** `getEstadoColor`: the status hue as a text colour. */
  function EstadoColor(estado: int): (c: string)
    ensures c == "text-" + StationStatus.Hue(estado) + "-400"
  {
    if estado == 0 then "text-green-400"
    else if estado == 1 then "text-yellow-400"
    else if estado == 2 then "text-red-400"
    else if estado == 3 then "text-orange-400"
    else "text-gray-400"
  }

  /** A station's text and colour agree: the text is "Operativa" exactly
      when the colour is green, and "Desconocido" exactly when it is gray. */
  lemma TextAndColorAgree(estado: int)
    ensures EstadoTexto(estado) == OperationalText <==> EstadoColor(estado) == "text-green-400"
    ensures EstadoTexto(estado) == UnknownText <==> EstadoColor(estado) == "text-gray-400"
  {
  }

  // ---------------------------------------------------------------- filters

  /** The widget's filter mode. */
  datatype Filtro = Todas | Problemas

  predicate KeepLine(f: Filtro, l: Metro.Line) {
    f == Todas || |l.estacionesProblema| > 0
  }

  /** The line filter: every line, or only the lines that list a problem station. */
  function FilterLines(lines: seq<Metro.Line>, f: Filtro): (r: seq<Metro.Line>)
    ensures f == Todas ==> r == lines
    ensures forall l :: l in r <==> l in lines && (f == Todas || |l.estacionesProblema| > 0)
  {
    var r := Lists.Filter(lines, l => KeepLine(f, l));
    assert f == Todas ==> r == lines by {
      if f == Todas {
        Lists.FilterAll(lines, l => KeepLine(f, l));
      }
    }
    r
  }

  /** On summaries that agree with their stations, "problems only" keeps
      exactly the lines whose overall status is not 0. */
  lemma ProblemLinesAreDegraded(lines: seq<Metro.Line>)
    requires forall l :: l in lines ==> Metro.WellFormedLine(l)
    ensures forall l :: l in FilterLines(lines, Problemas) <==> l in lines && l.estadoGeneral != 0
  {
  }

  /** The synthetic snapshot has no line with problems. */
  lemma FallbackHasNoProblemLines()
    ensures FilterLines(Metro.FallbackLines(), Problemas) == []
  {
    var r := FilterLines(Metro.FallbackLines(), Problemas);
    assert forall l :: l !in r;
  }

  predicate KeepStation(f: Filtro, s: Metro.Station) {
    f == Todas || s.status != 0
  }

  /** The station filter of an expanded line: every station, or only those whose status is not 0. */
  function FilterStations(es: seq<Metro.Station>, f: Filtro): (r: seq<Metro.Station>)
    ensures f == Todas ==> r == es
    ensures forall s :: s in r <==> s in es && (f == Todas || s.status != 0)
  {
    var r := Lists.Filter(es, s => KeepStation(f, s));
    assert f == Todas ==> r == es by {
      if f == Todas {
        Lists.FilterAll(es, s => KeepStation(f, s));
      }
    }
    r
  }

  function StationNames(es: seq<Metro.Station>): (r: seq<string>)
    ensures |r| == |es|
  {
    seq(|es|, k requires 0 <= k < |es| => es[k].name)
  }

  lemma {:induction false} FilteredNamesAreProblems(es: seq<Metro.Station>, p: Metro.Station -> bool)
    requires forall s :: p(s) == (s.status != 0)
    ensures StationNames(Lists.Filter(es, p)) == Metro.ProblemNamesOf(es)
  {
    if |es| > 0 {
      FilteredNamesAreProblems(es[1..], p);
      var tail := Lists.Filter(es[1..], p);
      if p(es[0]) {
        assert StationNames([es[0]] + tail) == [es[0].name] + StationNames(tail);
      }
    }
  }

  /** Expanding a line in "problems only" mode lists, in order, exactly the
      stations its summary names as problems. */
  lemma ProblemStationsMatchSummary(l: Metro.Line)
    requires Metro.WellFormedLine(l)
    ensures StationNames(FilterStations(l.estaciones, Problemas)) == l.estacionesProblema
    ensures |FilterStations(l.estaciones, Problemas)| + l.estacionesOperativas == l.totalEstaciones
  {
    FilteredNamesAreProblems(l.estaciones, s => KeepStation(Problemas, s));
    Metro.WellFormedCounts(l);
  }

  // ---------------------------------------------------------------- compact view

  const CompactSize := 6

  /** `estadoMetro.slice(0, 6)`: the lines of the compact view. */
  function CompactLines(v: Metro.Snapshot): (r: seq<Metro.Line>)
    ensures |r| <= CompactSize && |r| <= |v.lines|
    ensures |r| == CompactSize || |r| == |v.lines|
    ensures forall i :: 0 <= i < |r| ==> r[i] == v.lines[i]
  {
    if |v.lines| <= CompactSize then v.lines else v.lines[..CompactSize]
  }

  /** The synthetic snapshot has seven lines, so its compact view leaves out line 6. */
  lemma CompactFallbackOmitsLine6(now: int)
    ensures |CompactLines(Metro.FallbackSnapshot(now))| == 6
    ensures forall l :: l in CompactLines(Metro.FallbackSnapshot(now)) ==> l.codigo != "L6"
  {
    var r := CompactLines(Metro.FallbackSnapshot(now));
    forall l | l in r ensures l.codigo != "L6" {
      var i :| 0 <= i < |r| && r[i] == l;
    }
  }

  // ---------------------------------------------------------------- provenance

  const LiveText := "Estado vía api.xor.cl"
  const CacheText := "Datos desde caché local"
  const SyntheticText := "Sin datos en tiempo real"

  function ProvenanceText(p: TransitProperties.Provenance): (t: string)
    ensures t == LiveText <==> p.Live?
    ensures t == CacheText <==> p.Cached?
    ensures t == SyntheticText <==> p.Synthetic?
  {
    match p
    case Live => LiveText
    case Cached => CacheText
    case Synthetic => SyntheticText
  }

  /** The compact view's footer: `isFallback` first, then `fromCache`, else live. */
  function SourceLabel(v: Metro.Snapshot): (t: string)
    ensures t == ProvenanceText(TransitProperties.SnapshotProvenance(v))
  {
    if v.isFallback.Some? && v.isFallback.value then SyntheticText
    else if v.fromCache.Some? && v.fromCache.value then CacheText
    else LiveText
  }

  /** After any metro query the compact footer names the tier that answered. */
  lemma SourceLabelAfterQuery(s: Session, st: Storage, reply: Reply<MetroData>, now: int)
    requires TransitProperties.ValidStorage(st)
    ensures SourceLabel(ObtenerEstadoMetro(s, st, reply, now).returned) ==
      if MetroOutcome(reply).Got? then LiveText
      else if CachedMetroView(st, now).Some? then CacheText
      else SyntheticText
  {
    TransitProperties.MetroProvenance(s, st, reply, now);
  }

  /** The detailed view's footer as written: shown only for a non-empty array
      that carries `ultimaActualizacion`. */
  function DetailedFooterAsWritten(v: Metro.Snapshot): (r: Option<string>)
    ensures r.Some? ==> r.value == SourceLabel(v)
  {
    if |v.lines| > 0 && v.ultimaActualizacion.Some? then Some(SourceLabel(v)) else None
  }

  /** A cached snapshot never carries a timestamp, so the detailed footer
      never says "Datos desde caché local", and disappears whenever the
      cache answers. */
  lemma DetailedFooterNeverCached(s: Session, st: Storage, reply: Reply<MetroData>, now: int)
    requires TransitProperties.ValidStorage(st)
    ensures var r := ObtenerEstadoMetro(s, st, reply, now);
      && DetailedFooterAsWritten(r.returned) != Some(CacheText)
      && (MetroOutcome(reply).Threw? && CachedMetroView(st, now).Some? ==> DetailedFooterAsWritten(r.returned).None?)
  {
    TransitProperties.MetroProvenance(s, st, reply, now);
  }

  /** The detailed footer shown for every non-empty array, timestamped or not. */
  function DetailedFooter(v: Metro.Snapshot): (r: Option<string>)
    ensures r.Some? <==> |v.lines| > 0
    ensures r.Some? ==> r.value == ProvenanceText(TransitProperties.SnapshotProvenance(v))
  {
    if |v.lines| > 0 then Some(SourceLabel(v)) else None
  }

  /** With the correction, the detailed footer names the tier that answered whenever there are lines to show. */
  lemma DetailedFooterAfterQuery(s: Session, st: Storage, reply: Reply<MetroData>, now: int)
    requires TransitProperties.ValidStorage(st)
    ensures var r := ObtenerEstadoMetro(s, st, reply, now);
      |r.returned.lines| > 0 ==> DetailedFooter(r.returned) == Some(
        if MetroOutcome(reply).Got? then LiveText
        else if CachedMetroView(st, now).Some? then CacheText
        else SyntheticText)
  {
    TransitProperties.MetroProvenance(s, st, reply, now);
  }
}
