/**
 * Visual scaling of the layer stack.  The glass is 340 px tall and a 200 ml
 * drink fills it; a drink whose naive height would overflow the glass is
 * rescaled so that its layers share the 340 px in proportion to volume.
 * Each callout sits at the centre of its layer: the stacked heights of the
 * layers below plus half its own, under the same scaling branch.
 */
module Visual {
  import opened Wrappers
  import opened Catalog
  import opened Composition

  /** The glass's usable height in pixels. */
  const ContainerHeight: real := 340.0

  /** The volume the code treats as a full cup (the divisor is 200, not the 250 its comment names). */
  const ReferenceVolume: real := 200.0

  const ScaleFactor: real := ContainerHeight / ReferenceVolume

  /** `layers.reduce((sum, l) => sum + l.height, 0)`, folded from the left. */
  function TotalVolume(layers: seq<Layer>): (r: real)
    ensures (forall i :: 0 <= i < |layers| ==> layers[i].height >= 0.0) ==> r >= 0.0
  {
    if layers == [] then 0.0
    else TotalVolume(layers[..|layers| - 1]) + layers[|layers| - 1].height
  }

  /** `totalVolume * scaleFactor > 340`: the naive stack would overflow the glass. */
  predicate Overflows(total: real)
    ensures Overflows(total) <==> total > ReferenceVolume
  {
    total * ScaleFactor > ContainerHeight
  }

  /**
   * The drawn height of a layer of volume `height` in a drink of volume
   * `total`.  The proportional branch divides by `total` only when it
   * exceeds 200, so it never divides by zero.
   */
  function VisualHeight(height: real, total: real): (r: real)
    ensures height >= 0.0 ==> r >= 0.0
    ensures height > 0.0 ==> r > 0.0
    ensures 0.0 <= height <= total ==> r <= ContainerHeight
  {
    if Overflows(total) then (height / total) * ContainerHeight else height * ScaleFactor
  }

  /** `arr.slice(0, k).reduce(...)`: the drawn heights of the first `k` layers, stacked. */
  function StackBelow(layers: seq<Layer>, k: nat, total: real): (r: real)
    requires k <= |layers|
    ensures (forall i :: 0 <= i < k ==> layers[i].height >= 0.0) ==> r >= 0.0
  {
    if k == 0 then 0.0
    else StackBelow(layers, k - 1, total) + VisualHeight(layers[k - 1].height, total)
  }

  /**
   * The height of the whole drawn stack.  It never exceeds the glass, fills
   * it exactly when the drink was rescaled, and is the volume times 340/200
   * otherwise.
   */
  function StackHeight(layers: seq<Layer>): (r: real)
    ensures NonNegative(layers) ==> 0.0 <= r <= ContainerHeight
    ensures NonNegative(layers) && Overflows(TotalVolume(layers)) ==> r == ContainerHeight
    ensures !Overflows(TotalVolume(layers)) ==> r == TotalVolume(layers) * ScaleFactor
  {
    var total := TotalVolume(layers);
    StackIsWholeDrawn(layers);
    if NonNegative(layers) then
      WholeDrawn(total);
      StackBelow(layers, |layers|, total)
    else
      StackBelow(layers, |layers|, total)
  }

  /** The whole stack is drawn as tall as one layer holding the drink's whole volume. */
  lemma StackIsWholeDrawn(layers: seq<Layer>)
    ensures StackBelow(layers, |layers|, TotalVolume(layers)) == VisualHeight(TotalVolume(layers), TotalVolume(layers))
  {
    StackBelowScaled(layers, |layers|, TotalVolume(layers));
    assert layers[..|layers|] == layers;
  }

  /** `centerOfLayer`: the callout's offset from the bottom of the glass for layer `i`. */
  function Centre(layers: seq<Layer>, i: nat): (r: real)
    requires i < |layers|
    ensures layers[i].height >= 0.0 ==>
      StackBelow(layers, i, TotalVolume(layers)) <= r <= StackBelow(layers, i + 1, TotalVolume(layers))
  {
    var total := TotalVolume(layers);
    StackBelow(layers, i, total) + VisualHeight(layers[i].height, total) / 2.0
  }

  predicate NonNegative(layers: seq<Layer>) {
    forall i :: 0 <= i < |layers| ==> layers[i].height >= 0.0
  }

  predicate Positive(layers: seq<Layer>) {
    forall i :: 0 <= i < |layers| ==> layers[i].height > 0.0
  }

  /** Adding a layer on top adds its volume. */
  lemma TotalVolumeAppend(layers: seq<Layer>, l: Layer)
    ensures TotalVolume(layers + [l]) == TotalVolume(layers) + l.height
  {
    assert (layers + [l])[..|layers|] == layers;
  }

  /** Layers with the same volumes, position by position, have the same total volume. */
  lemma {:induction false} SameHeightsSameVolume(a: seq<Layer>, b: seq<Layer>)
    requires |a| == |b|
    requires forall i :: 0 <= i < |a| ==> a[i].height == b[i].height
    ensures TotalVolume(a) == TotalVolume(b)
  {
    if a != [] {
      SameHeightsSameVolume(a[..|a| - 1], b[..|b| - 1]);
    }
  }

  /** Iced mode keeps every volume and adds 20 ml of ice; hot mode keeps the volume. */
  lemma ComposedVolume(d: Drink, iced: bool)
    ensures TotalVolume(Composed(Some(d), iced)) ==
      TotalVolume(d.baseLayers) + (if iced then IceCubes.height else 0.0)
  {
    if iced {
      SameHeightsSameVolume(Chilled(d.baseLayers), d.baseLayers);
      TotalVolumeAppend(Chilled(d.baseLayers), IceCubes);
    }
  }

  /**
   * The stacked height of the first `k` layers is the drawn height their
   * combined volume would have under the same branch: scaled by 340/200, or
   * by 340/total when `total` overflows.
   */
  lemma {:induction false} StackBelowScaled(layers: seq<Layer>, k: nat, total: real)
    requires k <= |layers|
    ensures StackBelow(layers, k, total) == VisualHeight(TotalVolume(layers[..k]), total)
  {
    if k > 0 {
      StackBelowScaled(layers, k - 1, total);
      assert layers[..k][..k - 1] == layers[..k - 1];
      var below, h := TotalVolume(layers[..k - 1]), layers[k - 1].height;
      assert TotalVolume(layers[..k]) == below + h;
      VisualHeightAdds(below, h, total);
    }
  }

  /** Under a fixed branch the drawn height is linear in the volume. */
  lemma VisualHeightAdds(a: real, b: real, total: real)
    ensures VisualHeight(a, total) + VisualHeight(b, total) == VisualHeight(a + b, total)
  {
    if Overflows(total) {
      assert (a + b) / total == a / total + b / total;
    }
  }

  /** A layer holding the whole of an overflowing drink is drawn at the full height of the glass. */
  lemma WholeIsFull(total: real)
    requires Overflows(total)
    ensures VisualHeight(total, total) == ContainerHeight
  {
    assert total > 0.0;
    assert total / total == 1.0;
  }

  /** The drawn height of a whole drink's volume, in both branches. */
  lemma WholeDrawn(total: real)
    requires total >= 0.0
    ensures 0.0 <= VisualHeight(total, total) <= ContainerHeight
    ensures Overflows(total) ==> VisualHeight(total, total) == ContainerHeight
    ensures !Overflows(total) ==> VisualHeight(total, total) == total * ScaleFactor
  {
    if Overflows(total) {
      WholeIsFull(total);
    }
  }

  /** With non-negative volumes the stack only grows as layers are added; with positive ones it strictly grows. */
  lemma {:induction false} StackBelowMonotone(layers: seq<Layer>, i: nat, j: nat)
    requires i <= j <= |layers|
    requires NonNegative(layers)
    ensures StackBelow(layers, i, TotalVolume(layers)) <= StackBelow(layers, j, TotalVolume(layers))
    ensures Positive(layers) && i < j ==>
      StackBelow(layers, i, TotalVolume(layers)) < StackBelow(layers, j, TotalVolume(layers))
    decreases j - i
  {
    if i < j {
      StackBelowMonotone(layers, i, j - 1);
      var v := VisualHeight(layers[j - 1].height, TotalVolume(layers));
      assert v >= 0.0;
      assert Positive(layers) ==> v > 0.0;
    }
  }

  /** Every callout lies within the glass. */
  lemma CentreWithinGlass(layers: seq<Layer>, i: nat)
    requires i < |layers|
    requires NonNegative(layers)
    ensures 0.0 <= Centre(layers, i) <= ContainerHeight
  {
    StackBelowMonotone(layers, 0, i);
    StackBelowMonotone(layers, i + 1, |layers|);
    assert StackHeight(layers) <= ContainerHeight;
  }

  /** Callouts go strictly upwards with the layer index when every volume is positive. */
  lemma CentresIncrease(layers: seq<Layer>, i: nat, j: nat)
    requires i < j < |layers|
    requires Positive(layers)
    ensures Centre(layers, i) < Centre(layers, j)
  {
    StackBelowMonotone(layers, i + 1, j);
  }

  /**
   * No catalog drink, hot or iced, is ever rescaled: the largest is 85 ml
   * plus 20 ml of ice, well under the 200 ml reference.
   */
  lemma CatalogNeverRescales(k: nat, iced: bool)
    requires k < |Drinks|
    ensures !Overflows(TotalVolume(Composed(Some(Drinks[k]), iced)))
  {
    ComposedVolume(Drinks[k], iced);
    var base := Drinks[k].baseLayers;
    TotalVolumeShort(base);
  }

  /** The total volume of a recipe of at most three layers, written out. */
  lemma TotalVolumeShort(s: seq<Layer>)
    requires |s| <= 3
    ensures |s| == 1 ==> TotalVolume(s) == s[0].height
    ensures |s| == 2 ==> TotalVolume(s) == s[0].height + s[1].height
    ensures |s| == 3 ==> TotalVolume(s) == s[0].height + s[1].height + s[2].height
  {
    if |s| > 0 {
      assert s[..|s| - 1][..0] == [];
      if |s| > 1 {
        assert s[..|s| - 1][..1] == s[..1];
      }
      if |s| > 2 {
        assert s[..2][..1] == s[..1];
      }
    }
  }
}
