/** Stop arrivals: the transit API's nested service → bus records flattened
    into one list of arrivals and ordered by estimated arrival time
    (`procesarServiciosParadero` and `obtenerDestinoServicio`). */
module Arrivals {
  import opened Js

  /** One bus of a service as the API reports it. */
  datatype Bus = Bus(id: string, minArrivalTime: int, maxArrivalTime: int, metersDistance: int)

  /** One service at a stop; `buses` is `None` when the field is not an array. */
  datatype Service = Service(id: string, valid: bool, buses: Option<seq<Bus>>, statusDescription: string)

  /** An arrival time: the sentinel `"Llegando"` (arriving now) or a number of minutes. */
  datatype Eta = Llegando | Minutes(minutes: int)

  /** One flattened arrival as the widgets consume it. */
  datatype Arrival = Arrival(
    servicio: string,
    patente: string,
    tiempo: Eta,
    tiempoMax: int,
    distancia: int,
    destino: string,
    estado: string)

  const RoutePrefix := "Ruta "

  /** `obtenerDestinoServicio`: a placeholder destination built from the service id. */
  function Destino(idServicio: string): (r: string)
    ensures StartsWith(r, RoutePrefix) && r[|RoutePrefix|..] == idServicio
  {
    RoutePrefix + idServicio
  }

  /** Different services never share a destination label. */
  lemma DestinoInjective(a: string, b: string)
    ensures Destino(a) == Destino(b) <==> a == b
  {
    if Destino(a) == Destino(b) {
      assert a == Destino(a)[|RoutePrefix|..];
    }
  }

  /** A service contributes arrivals only when it is valid and lists at least one bus. */
  predicate Listed(s: Service) {
    s.valid && s.buses.Some? && |s.buses.value| > 0
  }

  /** The buses a service contributes. */
  function BusesOf(s: Service): seq<Bus> {
    if Listed(s) then s.buses.value else []
  }

  /** The arrival one bus of one service becomes. */
  function ArrivalOf(s: Service, b: Bus): (a: Arrival)
    ensures a.tiempo == Llegando <==> b.minArrivalTime == 0
    ensures a.tiempo.Minutes? ==> a.tiempo.minutes == b.minArrivalTime
  {
    Arrival(
      s.id,
      b.id,
      if b.minArrivalTime == 0 then Llegando else Minutes(b.minArrivalTime),
      b.maxArrivalTime,
      b.metersDistance,
      Destino(s.id),
      s.statusDescription)
  }

  /** How many buses all listed services report together. */
  function BusCount(services: seq<Service>): nat {
    if |services| == 0 then 0 else |BusesOf(services[0])| + BusCount(services[1..])
  }

  /** The arrivals of one service, in the order of its buses. */
  function ServiceArrivals(s: Service): (r: seq<Arrival>)
    ensures |r| == |BusesOf(s)|
    ensures forall j :: 0 <= j < |r| ==> r[j] == ArrivalOf(s, BusesOf(s)[j])
  {
    seq(|BusesOf(s)|, j requires 0 <= j < |BusesOf(s)| => ArrivalOf(s, BusesOf(s)[j]))
  }

  /** The flattening step, before sorting: one arrival per bus of every listed service. */
  function Flatten(services: seq<Service>): (r: seq<Arrival>)
    ensures |r| == BusCount(services)
    ensures forall a :: a in r <==> exists s, b :: s in services && b in BusesOf(s) && a == ArrivalOf(s, b)
  {
    if |services| == 0 then []
    else
      var head := ServiceArrivals(services[0]);
      var tail := Flatten(services[1..]);
      assert forall a :: a in head <==> exists b :: b in BusesOf(services[0]) && a == ArrivalOf(services[0], b) by {
        forall a | a in head ensures exists b :: b in BusesOf(services[0]) && a == ArrivalOf(services[0], b) {
          var j :| 0 <= j < |head| && head[j] == a;
          assert BusesOf(services[0])[j] in BusesOf(services[0]);
        }
        forall b | b in BusesOf(services[0]) ensures ArrivalOf(services[0], b) in head {
          var j :| 0 <= j < |BusesOf(services[0])| && BusesOf(services[0])[j] == b;
          assert head[j] == ArrivalOf(services[0], b);
        }
      }
      assert forall s :: s in services <==> s == services[0] || s in services[1..] by {
        assert services == [services[0]] + services[1..];
      }
      head + tail
  }

  /** A single service flattens to its own arrivals, one per bus, in the order of its buses. */
  lemma FlattenSingle(s: Service)
    ensures Flatten([s]) == ServiceArrivals(s)
  {
  }

  /** Flattening distributes over concatenation: every service contributes
      its own arrivals, in place, however the list is split. Together with
      `FlattenSingle` this fixes the result exactly, copies included. */
  lemma {:induction false} FlattenConcat(a: seq<Service>, b: seq<Service>)
    ensures Flatten(a + b) == Flatten(a) + Flatten(b)
  {
    if |a| == 0 {
      assert a + b == b;
    } else {
      assert (a + b)[0] == a[0];
      assert (a + b)[1..] == a[1..] + b;
      FlattenConcat(a[1..], b);
      assert Flatten(a + b) == ServiceArrivals(a[0]) + (Flatten(a[1..]) + Flatten(b));
    }
  }

  // ---------------------------------------------------------------- ordering

  /** The order the comparator induces: `"Llegando"` before any number, numbers ascending. */
  predicate EtaLe(a: Eta, b: Eta) {
    a.Llegando? || (b.Minutes? && a.minutes <= b.minutes)
  }

  /** The comparator as written: `"Llegando"` on the left gives -1 even when
      both sides are `"Llegando"`, so it is not antisymmetric there. */
  function SourceCompare(a: Eta, b: Eta): (c: int)
    ensures a.Llegando? ==> c == -1
    ensures a.Minutes? && b.Llegando? ==> c > 0
    ensures a.Minutes? && b.Minutes? ==> (c < 0 <==> a.minutes < b.minutes) && (c == 0 <==> a.minutes == b.minutes)
  {
    if a.Llegando? then -1 else if b.Llegando? then 1 else a.minutes - b.minutes
  }

  /** The comparator says "not after" exactly when `EtaLe` holds, so sorting by it means sorting by `EtaLe`. */
  lemma SourceCompareAgrees(a: Eta, b: Eta)
    ensures SourceCompare(a, b) <= 0 <==> EtaLe(a, b)
    ensures SourceCompare(a, b) > 0 <==> !EtaLe(a, b)
  {
  }

  predicate Sorted(xs: seq<Arrival>) {
    forall i, j :: 0 <= i < j < |xs| ==> EtaLe(xs[i].tiempo, xs[j].tiempo)
  }

  /** Sortedness in the words of the display: every `"Llegando"` entry comes
      before every numeric one, and the numeric times never decrease. */
  lemma SortedMeansArrivingFirst(xs: seq<Arrival>)
    ensures Sorted(xs) <==>
      (forall i, j :: 0 <= i < j < |xs| && xs[j].tiempo.Llegando? ==> xs[i].tiempo.Llegando?)
      && (forall i, j :: 0 <= i < j < |xs| && xs[i].tiempo.Minutes? && xs[j].tiempo.Minutes? ==>
            xs[i].tiempo.minutes <= xs[j].tiempo.minutes)
  {
  }

  /** In a sorted list the head comes no later than anything after it. */
  lemma HeadFirst(xs: seq<Arrival>)
    requires Sorted(xs) && |xs| > 0
    ensures forall y :: y in multiset(xs[1..]) ==> EtaLe(xs[0].tiempo, y.tiempo)
  {
    forall y | y in multiset(xs[1..]) ensures EtaLe(xs[0].tiempo, y.tiempo) {
      assert y in xs[1..];
      var j :| 0 <= j < |xs[1..]| && xs[1..][j] == y;
      assert xs[j + 1] == y;
    }
  }

  /** An element no later than every element of a sorted list can go in front of it. */
  lemma PrependSorted(h: Arrival, rest: seq<Arrival>)
    requires Sorted(rest)
    requires forall y :: y in multiset(rest) ==> EtaLe(h.tiempo, y.tiempo)
    ensures Sorted([h] + rest)
  {
    forall i, j | 0 <= i < j < |[h] + rest| ensures EtaLe(([h] + rest)[i].tiempo, ([h] + rest)[j].tiempo) {
      if i == 0 {
        assert ([h] + rest)[j] == rest[j - 1];
        assert rest[j - 1] in multiset(rest);
      } else {
        assert ([h] + rest)[i] == rest[i - 1] && ([h] + rest)[j] == rest[j - 1];
      }
    }
  }

  /** Insert one arrival into a sorted list, before the first entry it does not come after. */
  function Insert(x: Arrival, xs: seq<Arrival>): (r: seq<Arrival>)
    requires Sorted(xs)
    ensures Sorted(r)
    ensures multiset(r) == multiset(xs) + multiset{x}
  {
    if |xs| == 0 then [x]
    else if EtaLe(x.tiempo, xs[0].tiempo) then
      [x] + xs
    else
      var rest := Insert(x, xs[1..]);
      assert xs == [xs[0]] + xs[1..];
      HeadFirst(xs);
      assert EtaLe(xs[0].tiempo, x.tiempo);
      PrependSorted(xs[0], rest);
      [xs[0]] + rest
  }

  /** Insertion sort by `EtaLe`. The source hands its comparator to
      `Array.prototype.sort`; this contract fixes the result up to the order
      of entries with equal times. Among numeric times the comparator is
      consistent and the engine's sort is stable, so ties keep their input
      order, as this insertion sort does; between two `"Llegando"` entries
      the comparator answers -1 both ways, so the engine's order is not
      fixed and neither is this contract's. */
  function SortArrivals(xs: seq<Arrival>): (r: seq<Arrival>)
    ensures Sorted(r)
    ensures multiset(r) == multiset(xs)
  {
    if |xs| == 0 then []
    else
      assert xs == [xs[0]] + xs[1..];
      Insert(xs[0], SortArrivals(xs[1..]))
  }

  /** `procesarServiciosParadero`: `None` stands for a `services` field that is not an array. */
  function ProcesarServicios(services: Option<seq<Service>>): (r: seq<Arrival>)
    ensures services.None? ==> r == []
    ensures services.Some? ==> multiset(r) == multiset(Flatten(services.value))
    ensures |r| == if services.None? then 0 else BusCount(services.value)
    ensures Sorted(r)
    ensures forall a :: a in r ==> a.destino == Destino(a.servicio)
    ensures forall a :: a in r ==> a.tiempo.Llegando? || a.tiempo.minutes != 0
  {
    match services
    case None => []
    case Some(ss) =>
      var flat := Flatten(ss);
      var r := SortArrivals(flat);
      assert |r| == |flat| by {
        assert |multiset(r)| == |multiset(flat)|;
      }
      assert forall a :: a in r ==> a in flat by {
        forall a | a in r ensures a in flat {
          assert a in multiset(r);
        }
      }
      r
  }
}
