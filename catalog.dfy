/**
 * The static recipe catalog of the configurator: beans, brewing methods, milk
 * types and drinks.  Each drink lists its layers (substance, volume in ml,
 * caption, the source's `label`) in pour order and the ids of the methods it can be made with.
 * Lookups mirror `Array.prototype.find`: the first entry in declaration order.
 */
module Catalog {
  import opened Wrappers

  datatype Substance = Espresso | Milk | Foam | Water | Filter | Ice

  /** One slice of a drink; `height` is a volume in millilitres. */
  datatype Layer = Layer(substance: Substance, height: real, caption: string)

  datatype Bean = Bean(id: string, name: string, color: string, notes: string)

  datatype Category = EspressoBased | Manual

  datatype BrewMethod = BrewMethod(id: string, name: string, category: Category)

  datatype MilkType = MilkType(id: string, name: string, color: string)

  datatype Drink = Drink(id: string, name: string, baseLayers: seq<Layer>, compatible: seq<string>)

  const Beans: seq<Bean> := [
    Bean("ethiopia", "ETHIOPIAN YIRGACHEFFE", "#D2691E", "Jasmine, Lemon, Tea"),
    Bean("colombia", "COLOMBIAN SUPREMO", "#8B4513", "Caramel, Walnut, Cherry"),
    Bean("brazil", "BRAZILIAN SANTOS", "#A0522D", "Chocolate, Nuts, Low Acidity"),
    Bean("kenya", "KENYAN AA", "#654321", "Blackcurrant, Citrus, Wine"),
    Bean("sumatra", "SUMATRAN MANDHELING", "#3E2723", "Earthy, Herbal, Full Body")
  ]

  const Methods: seq<BrewMethod> := [
    BrewMethod("machine", "ESPRESSO MACHINE", EspressoBased),
    BrewMethod("v60", "HARIO V60", Manual),
    BrewMethod("french", "FRENCH PRESS", Manual),
    BrewMethod("aeropress", "AEROPRESS", Manual)
  ]

  const MilkTypes: seq<MilkType> := [
    MilkType("whole", "WHOLE MILK", "#fef3c7"),
    MilkType("oat", "OAT MILK", "#f5e6d3"),
    MilkType("almond", "ALMOND MILK", "#faf8f3"),
    MilkType("soy", "SOY MILK", "#f8f4e6"),
    MilkType("none", "NO MILK", "transparent")
  ]

  const EspressoDrink: Drink :=
    Drink("espresso", "ESPRESSO",
      [Layer(Espresso, 30.0, "Single Shot")],
      ["machine"])

  const Doppio: Drink :=
    Drink("doppio", "DOPPIO",
      [Layer(Espresso, 60.0, "Double Shot")],
      ["machine"])

  const Latte: Drink :=
    Drink("latte", "CAFFÈ LATTE",
      [Layer(Espresso, 15.0, "Espresso"), Layer(Milk, 60.0, "Steamed Milk"), Layer(Foam, 10.0, "Microfoam")],
      ["machine"])

  const Cappuccino: Drink :=
    Drink("cappuccino", "CAPPUCCINO",
      [Layer(Espresso, 20.0, "Espresso"), Layer(Milk, 40.0, "Steamed Milk"), Layer(Foam, 25.0, "Foam")],
      ["machine"])

  const FlatWhite: Drink :=
    Drink("flatwhite", "FLAT WHITE",
      [Layer(Espresso, 20.0, "Ristretto"), Layer(Milk, 60.0, "Microfoam"), Layer(Foam, 5.0, "Thin Layer")],
      ["machine"])

  const Macchiato: Drink :=
    Drink("macchiato", "MACCHIATO",
      [Layer(Espresso, 40.0, "Espresso"), Layer(Foam, 20.0, "Foam Mark")],
      ["machine"])

  const Americano: Drink :=
    Drink("americano", "AMERICANO",
      [Layer(Espresso, 20.0, "Espresso"), Layer(Water, 60.0, "Hot Water")],
      ["machine"])

  const FilterCoffee: Drink :=
    Drink("filter", "FILTER COFFEE",
      [Layer(Filter, 80.0, "Brewed Coffee")],
      ["v60", "french", "aeropress"])

  const AuLait: Drink :=
    Drink("aulait", "CAFÉ AU LAIT",
      [Layer(Filter, 40.0, "Brewed Coffee"), Layer(Milk, 40.0, "Steamed Milk")],
      ["v60", "french", "aeropress"])

  const Drinks: seq<Drink> := [EspressoDrink, Doppio, Latte, Cappuccino, FlatWhite, Macchiato, Americano, FilterCoffee, AuLait]

  /** The index of the first drink satisfying `p`, as `find` scans in declaration order. */
  function FindFirst(drinks: seq<Drink>, p: Drink -> bool): (r: Option<nat>)
    ensures r.Some? ==> r.value < |drinks| && p(drinks[r.value])
    ensures r.Some? ==> forall j :: 0 <= j < r.value ==> !p(drinks[j])
    ensures r.None? <==> forall j :: 0 <= j < |drinks| ==> !p(drinks[j])
  {
    if drinks == [] then None
    else if p(drinks[0]) then Some(0)
    else match FindFirst(drinks[1..], p)
      case None => None
      case Some(k) => Some(k + 1)
  }

  /** The first match is at `k` when `k` matches and nothing before it does. */
  lemma FindFirstAt(drinks: seq<Drink>, p: Drink -> bool, k: nat)
    requires k < |drinks| && p(drinks[k])
    requires forall j :: 0 <= j < k ==> !p(drinks[j])
    ensures FindFirst(drinks, p) == Some(k)
  {
    var r := FindFirst(drinks, p);
    assert r.Some?;
    assert !(r.value < k);
    assert !(r.value > k);
  }

  /** `DRINKS.find(d => d.id === id)`: the catalog entry selected by an id, if any. */
  function DrinkById(id: string): (r: Option<Drink>)
    ensures r.Some? <==> exists k :: 0 <= k < |Drinks| && Drinks[k].id == id
    ensures r.Some? ==> r.value in Drinks && r.value.id == id
  {
    match FindFirst(Drinks, (d: Drink) => d.id == id)
    case None => None
    case Some(k) => Some(Drinks[k])
  }

  /** `DRINKS.find(d => d.compatible.includes(m))`: the first drink that can be made with method `m`. */
  function FirstCompatible(m: string): (r: Option<nat>)
    ensures r.Some? ==> r.value < |Drinks| && m in Drinks[r.value].compatible
    ensures r.Some? ==> forall j :: 0 <= j < r.value ==> m !in Drinks[j].compatible
    ensures r.None? <==> forall j :: 0 <= j < |Drinks| ==> m !in Drinks[j].compatible
  {
    FindFirst(Drinks, (d: Drink) => m in d.compatible)
  }

  predicate IsMilky(l: Layer) {
    l.substance == Milk || l.substance == Foam
  }

  /** `layers.some(l => ['milk', 'foam'].includes(l.type))`. */
  function AnyMilky(layers: seq<Layer>): (b: bool)
    ensures b <==> exists i :: 0 <= i < |layers| && IsMilky(layers[i])
  {
    if layers == [] then false
    else IsMilky(layers[0]) || AnyMilky(layers[1..])
  }

  /** `hasMilk`: false when the selected id names no drink (the optional chain yields `undefined`). */
  function HasMilk(current: Option<Drink>): (b: bool)
    ensures b <==> current.Some? && exists i :: 0 <= i < |current.value.baseLayers| && IsMilky(current.value.baseLayers[i])
  {
    current.Some? && AnyMilky(current.value.baseLayers)
  }

  predicate IsMethodId(id: string) {
    exists k :: 0 <= k < |Methods| && Methods[k].id == id
  }

  predicate IsBeanId(id: string) {
    exists k :: 0 <= k < |Beans| && Beans[k].id == id
  }

  predicate IsMilkId(id: string) {
    exists k :: 0 <= k < |MilkTypes| && MilkTypes[k].id == id
  }

  /** Drink ids are distinct, so the entry a button names is the one `find` returns. */
  lemma DrinkIdsDistinct()
    ensures forall i, j :: 0 <= i < j < |Drinks| ==> Drinks[i].id != Drinks[j].id
  {
  }

  /** Looking up a catalog drink's own id finds that drink. */
  lemma DrinkByOwnId(k: nat)
    requires k < |Drinks|
    ensures DrinkById(Drinks[k].id) == Some(Drinks[k])
  {
    DrinkIdsDistinct();
    FindFirstAt(Drinks, (d: Drink) => d.id == Drinks[k].id, k);
  }

  /** Every brewing method offered has at least one drink compatible with it. */
  lemma EveryMethodHasDrink(m: string)
    requires IsMethodId(m)
    ensures FirstCompatible(m).Some?
  {
    var k :| 0 <= k < |Methods| && Methods[k].id == m;
    if k == 0 {
      assert m in Drinks[0].compatible;
    } else {
      assert m in Drinks[7].compatible;
    }
  }

  /** Every catalog drink has layers, a compatible method, and positive layer volumes. */
  lemma CatalogWellFormed()
    ensures forall k :: 0 <= k < |Drinks| ==> |Drinks[k].baseLayers| > 0 && |Drinks[k].compatible| > 0
    ensures forall k, i :: 0 <= k < |Drinks| && 0 <= i < |Drinks[k].baseLayers| ==> Drinks[k].baseLayers[i].height > 0.0
  {
  }
}
