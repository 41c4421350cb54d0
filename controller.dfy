/**
 * The selection controller: the five pieces of state the configurator keeps
 * (method, bean, milk, drink, iced) and the rules that guard them.  After the
 * method changes, an effect replaces a drink the new method cannot make by
 * the first catalog drink it can make.
 */
module Controller {
  import opened Wrappers
  import opened Catalog
  import opened Composition

  predicate CompatibleWith(drinkId: string, methodId: string) {
    DrinkById(drinkId).Some? && methodId in DrinkById(drinkId).value.compatible
  }

  /**
   * The drink id after the compatibility effect has run: an unknown or
   * compatible drink is left alone, an incompatible one becomes the first
   * compatible catalog drink, or stays put when there is none.
   */
  function Reconciled(drinkId: string, methodId: string): (r: string)
    ensures DrinkById(drinkId).None? ==> r == drinkId
    ensures CompatibleWith(drinkId, methodId) ==> r == drinkId
    ensures FirstCompatible(methodId).None? ==> r == drinkId
  {
    match DrinkById(drinkId)
    case None => drinkId
    case Some(d) =>
      if methodId in d.compatible then drinkId
      else match FirstCompatible(methodId)
        case None => drinkId
        case Some(k) => Drinks[k].id
  }

  /** For a catalog drink and an offered method, the effect always ends on a compatible drink. */
  lemma ReconciledIsCompatible(drinkId: string, methodId: string)
    requires DrinkById(drinkId).Some?
    requires IsMethodId(methodId)
    ensures CompatibleWith(Reconciled(drinkId, methodId), methodId)
  {
    EveryMethodHasDrink(methodId);
    if !CompatibleWith(drinkId, methodId) {
      DrinkByOwnId(FirstCompatible(methodId).value);
    }
  }

  /** Running the effect a second time changes nothing. */
  lemma ReconciledIdempotent(drinkId: string, methodId: string)
    ensures Reconciled(Reconciled(drinkId, methodId), methodId) == Reconciled(drinkId, methodId)
  {
    if DrinkById(drinkId).Some? && !CompatibleWith(drinkId, methodId) && FirstCompatible(methodId).Some? {
      DrinkByOwnId(FirstCompatible(methodId).value);
    }
  }

  /** An incompatible drink becomes the first catalog drink, in declaration order, that the method can make. */
  lemma ReconciledIsFirstCompatible(drinkId: string, methodId: string, k: nat)
    requires DrinkById(drinkId).Some? && !CompatibleWith(drinkId, methodId)
    requires k < |Drinks| && methodId in Drinks[k].compatible
    requires forall j :: 0 <= j < k ==> methodId !in Drinks[j].compatible
    ensures Reconciled(drinkId, methodId) == Drinks[k].id
  {
    FindFirstAt(Drinks, (d: Drink) => methodId in d.compatible, k);
  }

  /** Switching a filter coffee to the espresso machine lands on the espresso. */
  lemma FilterToMachineGivesEspresso()
    ensures Reconciled("filter", "machine") == "espresso"
  {
    DrinkByOwnId(7);
    FindFirstAt(Drinks, (d: Drink) => "machine" in d.compatible, 0);
  }

  /** The selection the configurator starts from and updates on each click. */
  class Selection {
    var methodId: string
    var beanId: string
    var milkId: string
    var drinkId: string
    var iced: bool

    /** Every field names a catalog entry and the drink can be made with the method. */
    ghost predicate Valid()
      reads this
    {
      IsMethodId(methodId) && IsBeanId(beanId) && IsMilkId(milkId) &&
      CompatibleWith(drinkId, methodId)
    }

    /** `currentDrink`: the catalog entry the selected id names. */
    function CurrentDrink(): (d: Option<Drink>)
      reads this
      ensures Valid() ==> d.Some? && d.value.id == drinkId && methodId in d.value.compatible
    {
      DrinkById(drinkId)
    }

    /** `hasMilk` for the current drink. */
    function HasMilkNow(): (b: bool)
      reads this
      ensures b <==> (CurrentDrink().Some? &&
        exists i :: 0 <= i < |CurrentDrink().value.baseLayers| && IsMilky(CurrentDrink().value.baseLayers[i]))
    {
      HasMilk(CurrentDrink())
    }

    /** The initial state: a hot latte from the espresso machine, Ethiopian beans, whole milk. */
    constructor ()
      ensures Valid()
      ensures methodId == "machine" && beanId == "ethiopia" && milkId == "whole"
      ensures drinkId == "latte" && !iced
    {
      methodId, beanId, milkId, drinkId, iced := "machine", "ethiopia", "whole", "latte", false;
      assert Methods[0].id == "machine" && Beans[0].id == "ethiopia" && MilkTypes[0].id == "whole";
      DrinkByOwnId(2);
    }

    /** The compatibility effect: replace an incompatible drink by the first compatible one. */
    method Reconcile()
      modifies this
      ensures drinkId == Reconciled(old(drinkId), methodId)
      ensures methodId == old(methodId) && beanId == old(beanId) && milkId == old(milkId) && iced == old(iced)
    {
      var current := DrinkById(drinkId);
      if current.Some? && methodId !in current.value.compatible {
        var fallback := FirstCompatible(methodId);
        if fallback.Some? {
          drinkId := Drinks[fallback.value].id;
        }
      }
    }

    /** A method button: select the method, then let the effect restore compatibility. */
    method SetMethod(id: string)
      requires Valid()
      requires IsMethodId(id)
      modifies this
      ensures Valid()
      ensures methodId == id
      ensures drinkId == Reconciled(old(drinkId), id)
      ensures beanId == old(beanId) && milkId == old(milkId) && iced == old(iced)
    {
      methodId := id;
      Reconcile();
      ReconciledIsCompatible(old(drinkId), id);
    }

    /** A drink button; buttons of drinks the method cannot make are disabled. */
    method SetDrink(id: string)
      requires Valid()
      requires CompatibleWith(id, methodId)
      modifies this
      ensures Valid()
      ensures drinkId == id
      ensures methodId == old(methodId) && beanId == old(beanId) && milkId == old(milkId) && iced == old(iced)
    {
      drinkId := id;
      Reconcile();
    }

    /** A bean button. */
    method SetBean(id: string)
      requires Valid()
      requires IsBeanId(id)
      modifies this
      ensures Valid()
      ensures beanId == id
      ensures methodId == old(methodId) && milkId == old(milkId) && drinkId == old(drinkId) && iced == old(iced)
    {
      beanId := id;
    }

    /** A milk button: ignored unless the current drink has a milk or foam layer. */
    method SetMilk(id: string)
      requires Valid()
      requires IsMilkId(id)
      modifies this
      ensures Valid()
      ensures milkId == if old(HasMilkNow()) then id else old(milkId)
      ensures methodId == old(methodId) && beanId == old(beanId) && drinkId == old(drinkId) && iced == old(iced)
    {
      if HasMilkNow() {
        milkId := id;
      }
    }

    /** The hot and iced buttons. */
    method SetIced(value: bool)
      requires Valid()
      modifies this
      ensures Valid()
      ensures iced == value
      ensures methodId == old(methodId) && beanId == old(beanId) && milkId == old(milkId) && drinkId == old(drinkId)
    {
      iced := value;
    }

    /** The layers drawn for the current selection. */
    method Layers() returns (layers: seq<Layer>)
      requires Valid()
      ensures layers == Composed(CurrentDrink(), iced)
      ensures |layers| == |CurrentDrink().value.baseLayers| + (if iced then 1 else 0)
    {
      layers := GenerateLayers(CurrentDrink(), iced);
    }
  }

  /** Switching the default latte to the V60 lands on the filter coffee. */
  lemma LatteToV60GivesFilter()
    ensures Reconciled("latte", "v60") == "filter"
  {
    DrinkByOwnId(2);
    ReconciledIsFirstCompatible("latte", "v60", 7);
  }

  /** The espresso has neither milk nor foam. */
  lemma EspressoHasNoMilk()
    ensures !HasMilk(DrinkById("espresso"))
  {
    DrinkByOwnId(0);
  }

  /**
   * Starting from the default latte, switching to the V60 falls back to the
   * filter coffee, and switching back to the machine falls back to the
   * espresso, where milk clicks are ignored.
   */
  method MethodRoundTrip() returns (drinkAfterV60: string, drinkAfterMachine: string, milkAfterClick: string)
    ensures drinkAfterV60 == "filter"
    ensures drinkAfterMachine == "espresso"
    ensures milkAfterClick == "whole"
  {
    var s := new Selection();
    assert Methods[1].id == "v60";
    s.SetMethod("v60");
    LatteToV60GivesFilter();
    drinkAfterV60 := s.drinkId;
    assert Methods[0].id == "machine";
    s.SetMethod("machine");
    FilterToMachineGivesEspresso();
    drinkAfterMachine := s.drinkId;
    assert MilkTypes[1].id == "oat";
    EspressoHasNoMilk();
    s.SetMilk("oat");
    milkAfterClick := s.milkId;
  }
}
