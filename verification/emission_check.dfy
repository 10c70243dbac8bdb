/** The visitor pattern's emission check: one integer rule per vehicle kind.
    Maintenance costs are floating point and not part of this model. */
module EmissionCheck {

  datatype Vehicle =
    | Car(year: int, kilometers: int)
    | Motorcycle(year: int, kilometers: int)
    | Truck(year: int, kilometers: int, loadCapacity: int)

  /** `EmissionCheckVisitor`'s three `visit` methods. Every kind's rule is
      the same shape: strictly newer than the kind's year limit and strictly
      under its mileage limit, as the `Limits` table lists them. */
  function Passes(v: Vehicle): (ok: bool)
    ensures ok <==> v.year > Limits(v).0 && v.kilometers < Limits(v).1
    ensures v.Car? ==> (ok <==> v.year > 2000 && v.kilometers < 200000)
    ensures v.Motorcycle? ==> (ok <==> v.year > 2005 && v.kilometers < 100000)
    ensures v.Truck? ==> (ok <==> v.year > 2010 && v.kilometers < 300000)
  {
    match v
    case Car(year, km) => year > 2000 && km < 200000
    case Motorcycle(year, km) => year > 2005 && km < 100000
    case Truck(year, km, _) => year > 2010 && km < 300000
  }

  /** The rule as a table: the last failing model year and the first failing
      mileage of each kind. */
  function Limits(v: Vehicle): (int, int) {
    match v
    case Car(_, _) => (2000, 200000)
    case Motorcycle(_, _) => (2005, 100000)
    case Truck(_, _, _) => (2010, 300000)
  }

  /** A newer vehicle of the same kind with fewer kilometres also passes. */
  lemma PassesMonotone(v: Vehicle, w: Vehicle)
    requires Passes(v) && Limits(w) == Limits(v)
    requires w.year >= v.year && w.kilometers <= v.kilometers
    ensures Passes(w)
  {
  }

  /** A truck's load capacity plays no part in the check. */
  lemma LoadIrrelevant(year: int, kilometers: int, load1: int, load2: int)
    ensures Passes(Truck(year, kilometers, load1)) == Passes(Truck(year, kilometers, load2))
  {
  }

  /** `vehicles.forEach(v => v.accept(visitor))`: one verdict per vehicle, in order. */
  function CheckAll(vs: seq<Vehicle>): (r: seq<bool>)
    ensures |r| == |vs|
    ensures forall i :: 0 <= i < |vs| ==> r[i] == Passes(vs[i])
  {
    seq(|vs|, i requires 0 <= i < |vs| => Passes(vs[i]))
  }

  /** The demo: the 2000 car fails on its year; the motorcycle and the truck pass. */
  lemma DemoScenario()
    ensures CheckAll([Car(2000, 150000), Motorcycle(2015, 30000), Truck(2012, 250000, 20)])
      == [false, true, true]
  {
  }
}
