/**
 * Layer composition: the selected drink plus the hot/iced switch become the
 * ordered stack of layers drawn in the cup (bottom first).
 */
module Composition {
  import opened Wrappers
  import opened Catalog

  /** The layer iced mode puts on top of every drink. */
  const IceCubes: Layer := Layer(Ice, 20.0, "Ice Cubes")

  /** The iced relabelling of one layer: only milk, foam and water are renamed. */
  function Chill(l: Layer): (r: Layer)
    ensures r.substance == l.substance && r.height == l.height
    ensures l.substance == Milk ==> r.caption == "Cold Milk"
    ensures l.substance == Foam ==> r.caption == "Cold Foam"
    ensures l.substance == Water ==> r.caption == "Cold Water"
    ensures l.substance !in {Milk, Foam, Water} ==> r == l
  {
    match l.substance
    case Milk => l.(caption := "Cold Milk")
    case Foam => l.(caption := "Cold Foam")
    case Water => l.(caption := "Cold Water")
    case _ => l
  }

  /** `layers.map(...)` with the iced relabelling. */
  function Chilled(layers: seq<Layer>): (r: seq<Layer>)
    ensures |r| == |layers|
    ensures forall i :: 0 <= i < |layers| ==> r[i] == Chill(layers[i])
  {
    if layers == [] then [] else [Chill(layers[0])] + Chilled(layers[1..])
  }

  /**
   * The layers `generateLayers` yields: nothing without a current drink, the
   * drink's own layers when hot, and when iced the relabelled layers with the
   * ice layer on top.
   */
  function Composed(current: Option<Drink>, iced: bool): (r: seq<Layer>)
    ensures current.None? ==> r == []
    ensures current.Some? && !iced ==> r == current.value.baseLayers
    ensures current.Some? && iced ==>
      |r| == |current.value.baseLayers| + 1 && r[|r| - 1] == IceCubes
    ensures current.Some? && iced ==>
      forall i :: 0 <= i < |current.value.baseLayers| ==>
        r[i].substance == current.value.baseLayers[i].substance &&
        r[i].height == current.value.baseLayers[i].height &&
        r[i] == Chill(current.value.baseLayers[i])
  {
    match current
    case None => []
    case Some(d) => if iced then Chilled(d.baseLayers) + [IceCubes] else d.baseLayers
  }

  /**
   * `generateLayers`: copy the base layers into a fresh array, relabelling
   * each one when iced, and push the ice layer into the last slot.
   */
  method GenerateLayers(current: Option<Drink>, iced: bool) returns (layers: seq<Layer>)
    ensures layers == Composed(current, iced)
  {
    if current.None? {
      return [];
    }
    var base := current.value.baseLayers;
    var composed := Composed(current, iced);
    var a := new Layer[|base| + (if iced then 1 else 0)];
    var i := 0;
    while i < |base|
      invariant 0 <= i <= |base|
      invariant a[..i] == composed[..i]
    {
      a[i] := if iced then Chill(base[i]) else base[i];
      i := i + 1;
    }
    if iced {
      a[|base|] := IceCubes;
    }
    layers := a[..];
  }

  /** Relabelling twice is relabelling once: the cold captions are fixed points. */
  lemma {:induction false} ChilledIdempotent(layers: seq<Layer>)
    ensures Chilled(Chilled(layers)) == Chilled(layers)
  {
    var once := Chilled(layers);
    var twice := Chilled(once);
    forall i | 0 <= i < |layers|
      ensures twice[i] == once[i]
    {
      assert once[i] == Chill(layers[i]);
    }
  }
}
