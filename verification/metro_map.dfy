/** The pure helpers of the metro map: which line is active, which stations
    it draws, the status texts and colours of a station, and the connection
    chips of a selected station. */
module MetroMap {
  import opened Js
  import Metro
  import StationStatus
  import MetroWidget
  import opened TransitData

  const DefaultLine := "L1"

  /** `lineaSeleccionada || "L1"`: a missing or empty selection means line 1. */
  function ActiveLine(seleccion: Option<string>): (code: string)
    ensures seleccion.Some? && seleccion.value != "" ==> code == seleccion.value
    ensures seleccion.None? || seleccion.value == "" ==> code == DefaultLine
  {
    if seleccion.Some? && seleccion.value != "" then seleccion.value else DefaultLine
  }

  /** Line `i` is the first with that code. */
  predicate FirstWithCode(lines: seq<Metro.Line>, code: string, i: int) {
    0 <= i < |lines| && lines[i].codigo == code && forall j :: 0 <= j < i ==> lines[j].codigo != code
  }

  /** `lineas.find((l) => l.codigo === code)`: the first line with that code. */
  function FindLine(lines: seq<Metro.Line>, code: string): (r: Option<Metro.Line>)
    ensures r.None? <==> forall i :: 0 <= i < |lines| ==> lines[i].codigo != code
    ensures r.Some? ==> exists i :: FirstWithCode(lines, code, i) && lines[i] == r.value
  {
    if |lines| == 0 then None
    else if lines[0].codigo == code then Some(lines[0])
    else
      var r := FindLine(lines[1..], code);
      assert forall j :: 1 <= j < |lines| ==> lines[j] == lines[1..][j - 1];
      assert r.Some? ==> exists i :: FirstWithCode(lines, code, i) && lines[i] == r.value by {
        if r.Some? {
          var i :| FirstWithCode(lines[1..], code, i) && lines[1..][i] == r.value;
          assert FirstWithCode(lines, code, i + 1);
        }
      }
      r
  }

  /** `getEstacionesLinea`: the stations of the active line, none when no line has its code. */
  function EstacionesLinea(lines: seq<Metro.Line>, activa: string): (r: seq<Metro.Station>)
    ensures FindLine(lines, activa).None? ==> r == []
    ensures FindLine(lines, activa).Some? ==> r == FindLine(lines, activa).value.estaciones
  {
    match FindLine(lines, activa)
    case Some(l) => l.estaciones
    case None => []
  }

  /** With nothing selected, the map over the synthetic snapshot draws the 27 stations of line 1. */
  lemma DefaultMapOfFallback()
    ensures |EstacionesLinea(Metro.FallbackLines(), ActiveLine(None))| == 27
  {
    var lines := Metro.FallbackLines();
    assert lines[0].codigo == "L1";
    assert FindLine(lines, "L1") == Some(lines[0]);
  }

  /** On a live snapshot, the map of line `code` draws the stations of the
      first API line with that id, each with its name and status. */
  lemma LiveMapStations(apiLines: seq<Metro.ApiLine>, code: string)
    ensures var r := EstacionesLinea(Metro.Normalize(apiLines), code);
      (forall i :: 0 <= i < |apiLines| ==> apiLines[i].id != code) ==> r == []
    ensures forall i :: FirstWithCode(Metro.Normalize(apiLines), code, i) ==>
        var r := EstacionesLinea(Metro.Normalize(apiLines), code);
        |r| == |apiLines[i].stations|
        && forall k :: 0 <= k < |r| ==>
             r[k].name == apiLines[i].stations[k].name && r[k].status == apiLines[i].stations[k].status
  {
    var lines := Metro.Normalize(apiLines);
    forall i | FirstWithCode(lines, code, i)
      ensures FindLine(lines, code) == Some(lines[i])
    {
      var r := FindLine(lines, code);
      var n :| FirstWithCode(lines, code, n) && lines[n] == r.value;
      assert n == i;
    }
  }

  // ---------------------------------------------------------------- status

  /** The map's `getEstadoColor`: the status hue as a background. */
  function EstadoColor(estado: int): (c: string)
    ensures c == "bg-" + StationStatus.Hue(estado) + "-500"
  {
    if estado == 0 then "bg-green-500"
    else if estado == 1 then "bg-yellow-500"
    else if estado == 2 then "bg-red-500"
    else if estado == 3 then "bg-orange-500"
    else "bg-gray-500"
  }

  /** The map's `getEstadoTexto`. */
  function EstadoTexto(estado: int): (t: string)
    ensures t == "Operativa" <==> estado == 0
    ensures t == "Desconocido" <==> !(0 <= estado <= 3)
  {
    if estado == 0 then "Operativa"
    else if estado == 1 then "Cerrada Temporalmente"
    else if estado == 2 then "No Habilitada"
    else if estado == 3 then "Accesos Cerrados"
    else "Desconocido"
  }

  /** The map and the list widget describe a station the same way: the
      same text, and a colour of the same hue. */
  lemma MapAgreesWithList(estado: int)
    ensures EstadoTexto(estado) == MetroWidget.EstadoTexto(estado)
    ensures EstadoColor(estado)[3..|EstadoColor(estado)| - 4] == MetroWidget.EstadoColor(estado)[5..|MetroWidget.EstadoColor(estado)| - 4]
  {
    var h := StationStatus.Hue(estado);
    assert EstadoColor(estado)[3..|EstadoColor(estado)| - 4] == h;
    assert MetroWidget.EstadoColor(estado)[5..|MetroWidget.EstadoColor(estado)| - 4] == h;
  }

  // ---------------------------------------------------------------- connections

  /** `s.replace("L", "")`: the first `L` removed, if there is one. */
  function ChipLabel(lineaId: string): (r: string)
    ensures 'L' !in lineaId ==> r == lineaId
    ensures 'L' in lineaId ==> |r| == |lineaId| - 1 && multiset(r) == multiset(lineaId) - multiset{'L'}
    ensures |lineaId| > 0 && lineaId[0] == 'L' ==> r == lineaId[1..]
    ensures 'L' in lineaId ==> exists i :: 0 <= i < |lineaId| && lineaId[i] == 'L' && 'L' !in lineaId[..i] && r == lineaId[..i] + lineaId[i + 1..]
  {
    if 'L' !in lineaId then lineaId
    else
      var i := FirstIndexOf(lineaId, 'L');
      assert lineaId == lineaId[..i] + [lineaId[i]] + lineaId[i + 1..];
      lineaId[..i] + lineaId[i + 1..]
  }

  /** `linea?.color || "#6B7280"`: the colour of the line with that code, gray when there is none. */
  function ChipColor(lines: seq<Metro.Line>, lineaId: string): (c: string)
    ensures FindLine(lines, lineaId).None? ==> c == Metro.DefaultColor
  {
    match FindLine(lines, lineaId)
    case Some(l) => if l.color != "" then l.color else Metro.DefaultColor
    case None => Metro.DefaultColor
  }

  /** On summaries that agree with their stations, a chip has the colour
      the normaliser's table gives its code whenever a line with that code is
      on the map. */
  lemma ChipColorIsTableColor(lines: seq<Metro.Line>, lineaId: string)
    requires forall l :: l in lines ==> Metro.WellFormedLine(l)
    ensures (exists i :: 0 <= i < |lines| && lines[i].codigo == lineaId) ==>
      ChipColor(lines, lineaId) == Metro.LineColor(lineaId)
    ensures (forall i :: 0 <= i < |lines| ==> lines[i].codigo != lineaId) ==>
      ChipColor(lines, lineaId) == Metro.DefaultColor
  {
    var r := FindLine(lines, lineaId);
    if r.Some? {
      var i :| FirstWithCode(lines, lineaId, i) && lines[i] == r.value;
      assert lines[i] in lines;
    }
  }

  /** One connection chip: its label and background. */
  datatype Chip = Chip(text: string, color: string)

  /** The connection chips of a selected station: one per listed line, none
      when the station carries no `lines`. */
  function Connections(estacion: Metro.Station, lines: seq<Metro.Line>): (r: seq<Chip>)
    ensures estacion.lines.None? ==> r == []
    ensures estacion.lines.Some? ==> |r| == |estacion.lines.value|
  {
    match estacion.lines
    case None => []
    case Some(ids) => seq(|ids|, k requires 0 <= k < |ids| => Chip(ChipLabel(ids[k]), ChipColor(lines, ids[k])))
  }

  /** Stations from the live normaliser keep only their first line, not
      `lines`, so a selected live station shows no connection chip. */
  lemma LiveStationsShowNoConnections(apiLines: seq<Metro.ApiLine>, lines: seq<Metro.Line>)
    ensures forall i, k :: 0 <= i < |Metro.Normalize(apiLines)| && 0 <= k < |Metro.Normalize(apiLines)[i].estaciones| ==>
      Connections(Metro.Normalize(apiLines)[i].estaciones[k], lines) == []
  {
  }

  /** A synthetic station shows one chip: its own line's number in its own line's colour. */
  lemma FallbackStationConnection(i: int, k: int)
    requires 0 <= i < 7 && 0 <= k < |Metro.FallbackLines()[i].estaciones|
    ensures var lines := Metro.FallbackLines();
      var code := lines[i].codigo;
      Connections(lines[i].estaciones[k], lines) == [Chip(code[1..], Metro.LineColor(code))]
  {
    var lines := Metro.FallbackLines();
    var code := lines[i].codigo;
    var station := lines[i].estaciones[k];
    assert station.lines == Some([code]);
    Metro.FallbackLinesWellFormed();
    ChipColorIsTableColor(lines, code);
    assert ChipColor(lines, code) == Metro.LineColor(code);
    assert code[0] == 'L';
    assert ChipLabel(code) == code[1..];
  }
}
