/** The metro network: the API's line/station records normalised into the
    per-line summaries the widgets show (`procesarEstadoMetroNuevo`), and the
    synthetic seven-line snapshot used when nothing else is available
    (`generarDatosFallbackMetro`). */
module Metro {
  import opened Js
  import Lists

  /** A station as the metro-network endpoint reports it. */
  datatype ApiStation = ApiStation(name: string, status: int, lines: seq<string>)

  /** A line as the metro-network endpoint reports it. */
  datatype ApiLine = ApiLine(id: string, name: string, stations: seq<ApiStation>)

  /** A station as the widgets see it. Normalised stations carry `line` (the
      first line the API lists, absent when it lists none); synthetic ones
      carry `lines` instead. Status 0 is operational; 1 temporarily closed,
      2 not enabled, 3 accesses closed. */
  datatype Station = Station(name: string, line: Option<string>, lines: Option<seq<string>>, status: int)

  /** A line summary. */
  datatype Line = Line(
    codigo: string,
    nombre: string,
    color: string,
    estadoGeneral: int,
    estacionesOperativas: int,
    totalEstaciones: int,
    estacionesProblema: seq<string>,
    estaciones: seq<Station>)

  /** The array of lines with the properties the hook attaches to it; a
      property that is not attached is `None`. */
  datatype Snapshot = Snapshot(
    lines: seq<Line>,
    ultimaActualizacion: Option<int>,
    isFallback: Option<bool>,
    fromCache: Option<bool>)

  /** The empty array the hook starts with. */
  const EmptySnapshot := Snapshot([], None, None, None)

  // ---------------------------------------------------------------- colours

  const DefaultColor := "#6B7280"

  const LineColors: map<string, string> := map[
    "L1" := "#DC2626",
    "L2" := "#F59E0B",
    "L3" := "#845C40",
    "L4" := "#2563EB",
    "L4A" := "#2563EB",
    "L5" := "#059669",
    "L6" := "#5B21B6"]

  /** `coloresLineas[id] || "#6B7280"`: the table colour, gray for codes the table does not know. */
  function LineColor(code: string): (c: string)
    ensures c == DefaultColor <==> code !in LineColors
    ensures code in LineColors ==> c == LineColors[code]
    ensures |c| == 7 && c[0] == '#'
  {
    if code in LineColors then LineColors[code] else DefaultColor
  }

  // ---------------------------------------------------------------- summaries

  predicate Down(s: Station) {
    s.status != 0
  }

  /** The names of the stations that are not operational, in order. */
  function ProblemNamesOf(es: seq<Station>): seq<string> {
    if |es| == 0 then []
    else if Down(es[0]) then [es[0].name] + ProblemNamesOf(es[1..])
    else ProblemNamesOf(es[1..])
  }

  /** How many stations are operational. */
  function OperationalCountOf(es: seq<Station>): nat {
    if |es| == 0 then 0
    else (if Down(es[0]) then 0 else 1) + OperationalCountOf(es[1..])
  }

  /** Every station is either operational or has a problem, never both. */
  lemma {:induction false} OperationalPlusProblems(es: seq<Station>)
    ensures OperationalCountOf(es) + |ProblemNamesOf(es)| == |es|
    ensures |ProblemNamesOf(es)| == 0 <==> forall k :: 0 <= k < |es| ==> es[k].status == 0
  {
    if |es| > 0 {
      OperationalPlusProblems(es[1..]);
      if !Down(es[0]) {
        assert forall k :: 1 <= k < |es| ==> es[k] == es[1..][k - 1];
      }
    }
  }

  /** The summary fields of a line agree with its stations: the counts are
      those of its station list, the problem list names exactly its stations
      whose status is not 0, the overall status is 0 exactly when there are
      none, and the colour is the table colour of its code. */
  predicate WellFormedLine(l: Line) {
    && l.totalEstaciones == |l.estaciones|
    && l.estacionesOperativas == OperationalCountOf(l.estaciones)
    && l.estacionesProblema == ProblemNamesOf(l.estaciones)
    && (if |l.estacionesProblema| == 0 then l.estadoGeneral == 0 else l.estadoGeneral == 1)
    && l.color == LineColor(l.codigo)
  }

  /** The count identities every well-formed line satisfies. */
  lemma WellFormedCounts(l: Line)
    requires WellFormedLine(l)
    ensures l.estacionesOperativas + |l.estacionesProblema| == l.totalEstaciones
    ensures l.estadoGeneral == 0 <==> forall k :: 0 <= k < |l.estaciones| ==> l.estaciones[k].status == 0
    ensures l.estadoGeneral == 0 <==> l.estacionesOperativas == l.totalEstaciones
  {
    OperationalPlusProblems(l.estaciones);
  }

  // ---------------------------------------------------------------- normalisation

  predicate ApiOperational(s: ApiStation) {
    s.status == 0
  }

  predicate ApiDown(s: ApiStation) {
    s.status != 0
  }

  function Names(ss: seq<ApiStation>): (r: seq<string>)
    ensures |r| == |ss|
  {
    seq(|ss|, k requires 0 <= k < |ss| => ss[k].name)
  }

  /** `est.lines[0]`: `undefined` when the station lists no line. */
  function FirstLine(lines: seq<string>): Option<string> {
    if |lines| == 0 then None else Some(lines[0])
  }

  /** The station record `procesarEstadoMetroNuevo` builds: name, first line, status. */
  function StationOf(s: ApiStation): (r: Station)
    ensures r.name == s.name && r.status == s.status && r.lines.None?
    ensures r.line.Some? <==> |s.lines| > 0
    ensures r.line.Some? ==> r.line.value == s.lines[0]
  {
    Station(s.name, FirstLine(s.lines), None, s.status)
  }

  function StationsOf(ss: seq<ApiStation>): (r: seq<Station>)
    ensures |r| == |ss|
    ensures forall k :: 0 <= k < |ss| ==> r[k] == StationOf(ss[k])
  {
    seq(|ss|, k requires 0 <= k < |ss| => StationOf(ss[k]))
  }

  /** Counting and naming the problem stations before or after the
      conversion to `Station` gives the same answer. */
  lemma {:induction false} SummariesCommute(ss: seq<ApiStation>)
    ensures |Lists.Filter(ss, ApiOperational)| == OperationalCountOf(StationsOf(ss))
    ensures Names(Lists.Filter(ss, ApiDown)) == ProblemNamesOf(StationsOf(ss))
  {
    if |ss| > 0 {
      SummariesCommute(ss[1..]);
      var es := StationsOf(ss);
      assert es[0] == StationOf(ss[0]);
      assert es[1..] == StationsOf(ss[1..]);
      var tail := Lists.Filter(ss[1..], ApiDown);
      if ApiDown(ss[0]) {
        assert Lists.Filter(ss, ApiDown) == [ss[0]] + tail;
        assert Names([ss[0]] + tail) == [ss[0].name] + Names(tail);
      } else {
        assert Lists.Filter(ss, ApiDown) == tail;
      }
    }
  }

  /** One line of `procesarEstadoMetroNuevo`. */
  function NormalizeLine(l: ApiLine): (r: Line)
    ensures WellFormedLine(r)
    ensures r.codigo == l.id && r.nombre == l.name
    ensures |r.estaciones| == |l.stations|
    ensures forall k :: 0 <= k < |l.stations| ==> r.estaciones[k] == StationOf(l.stations[k])
    ensures r.estacionesOperativas + |r.estacionesProblema| == |l.stations|
    ensures r.estadoGeneral == 0 <==> forall k :: 0 <= k < |l.stations| ==> l.stations[k].status == 0
  {
    var problemas := Names(Lists.Filter(l.stations, ApiDown));
    var r := Line(
      l.id,
      l.name,
      LineColor(l.id),
      if |problemas| == 0 then 0 else 1,
      |Lists.Filter(l.stations, ApiOperational)|,
      |l.stations|,
      problemas,
      StationsOf(l.stations));
    SummariesCommute(l.stations);
    WellFormedCounts(r);
    r
  }

  /** `procesarEstadoMetroNuevo`: one summary per API line, in the API's order. */
  function Normalize(ls: seq<ApiLine>): (r: seq<Line>)
    ensures |r| == |ls|
    ensures forall i :: 0 <= i < |ls| ==> r[i] == NormalizeLine(ls[i])
    ensures forall i :: 0 <= i < |r| ==> WellFormedLine(r[i]) && r[i].codigo == ls[i].id
  {
    seq(|ls|, i requires 0 <= i < |ls| => NormalizeLine(ls[i]))
  }

  // ---------------------------------------------------------------- fallback

  /** The fixed metadata of one synthetic line. */
  datatype LineInfo = LineInfo(id: string, nombre: string, estaciones: nat, color: string)

  const FallbackInfo: seq<LineInfo> := [
    LineInfo("L1", "Línea 1", 27, "#DC2626"),
    LineInfo("L2", "Línea 2", 22, "#F59E0B"),
    LineInfo("L3", "Línea 3", 18, "#845C40"),
    LineInfo("L4", "Línea 4", 23, "#2563EB"),
    LineInfo("L4A", "Línea 4A", 6, "#2563EB"),
    LineInfo("L5", "Línea 5", 30, "#059669"),
    LineInfo("L6", "Línea 6", 10, "#5B21B6")]

  /** Synthetic station `i` (from 0) of a line: `Estación <i+1>`, operational. */
  function SampleStation(id: string, i: nat): Station {
    Station("Estación " + NatToString(i + 1), None, Some([id]), 0)
  }

  lemma {:induction false} AllOperational(es: seq<Station>)
    requires forall k :: 0 <= k < |es| ==> es[k].status == 0
    ensures OperationalCountOf(es) == |es| && ProblemNamesOf(es) == []
  {
    if |es| > 0 {
      AllOperational(es[1..]);
    }
  }

  function FallbackLine(info: LineInfo): (r: Line)
    requires info.color == LineColor(info.id)
    ensures WellFormedLine(r)
    ensures r.codigo == info.id && r.totalEstaciones == info.estaciones
    ensures r.estadoGeneral == 0 && r.estacionesProblema == [] && r.estacionesOperativas == r.totalEstaciones
    ensures forall k :: 0 <= k < |r.estaciones| ==> r.estaciones[k].status == 0 && r.estaciones[k].lines == Some([r.codigo])
  {
    var es := seq(info.estaciones, i requires 0 <= i < info.estaciones => SampleStation(info.id, i));
    AllOperational(es);
    Line(info.id, info.nombre, info.color, 0, info.estaciones, info.estaciones, [], es)
  }

  /** `generarDatosFallbackMetro`'s lines: seven lines L1, L2, L3, L4, L4A, L5,
      L6 with 27, 22, 18, 23, 6, 30 and 10 stations, every station operational,
      each line's colour matching the normaliser's colour table. */
  function FallbackLines(): (r: seq<Line>)
    ensures |r| == 7
    ensures forall i :: 0 <= i < 7 ==> r[i].codigo == ["L1", "L2", "L3", "L4", "L4A", "L5", "L6"][i]
    ensures forall i :: 0 <= i < 7 ==> r[i].totalEstaciones == [27, 22, 18, 23, 6, 30, 10][i]
    ensures forall i :: 0 <= i < 7 ==> WellFormedLine(r[i])
    ensures forall i :: 0 <= i < 7 ==>
      r[i].estadoGeneral == 0 && r[i].estacionesProblema == [] && r[i].estacionesOperativas == r[i].totalEstaciones
    ensures forall i, k :: 0 <= i < 7 && 0 <= k < |r[i].estaciones| ==>
      r[i].estaciones[k].status == 0 && r[i].estaciones[k].lines == Some([r[i].codigo])
  {
    FallbackInfoColors();
    seq(7, i requires 0 <= i < 7 => FallbackLine(FallbackInfo[i]))
  }

  /** The synthetic metadata uses the normaliser's colour table. */
  lemma FallbackInfoColors()
    ensures forall i :: 0 <= i < |FallbackInfo| ==> FallbackInfo[i].color == LineColor(FallbackInfo[i].id)
  {
  }

  /** Every synthetic line is well formed, stated over membership. */
  lemma FallbackLinesWellFormed()
    ensures forall l :: l in FallbackLines() ==> WellFormedLine(l)
  {
    var lines := FallbackLines();
    forall l | l in lines ensures WellFormedLine(l) {
      var i :| 0 <= i < |lines| && lines[i] == l;
    }
  }

  /** The synthetic snapshot, stamped `now` and marked `isFallback`. */
  function FallbackSnapshot(now: int): (s: Snapshot)
    ensures s.isFallback == Some(true) && s.fromCache.None? && s.ultimaActualizacion == Some(now)
    ensures s.lines == FallbackLines()
  {
    Snapshot(FallbackLines(), Some(now), Some(true), None)
  }
}
