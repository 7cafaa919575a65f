/** The espresso machine: one beans container and one water tank, which it
    alone changes, brewing by taking from both and reporting a status. */
module Machine {
  import opened Failures
  import opened Containers
  import opened Brewing
  import opened Display

  class EspressoMachine {
    const beans: BeansContainer
    const water: WaterContainer

    ghost predicate Valid()
      reads this, beans, water
    {
      beans.Valid() && water.Valid()
    }

    /** The machine's whole state: what its two containers hold. */
    function Contents(): Stock
      reads this, beans, water
    {
      Stock(beans.beans, water.water)
    }

    constructor (beans: BeansContainer, water: WaterContainer)
      requires beans.Valid() && water.Valid()
      ensures Valid()
      ensures this.beans == beans && this.water == water
      ensures Contents() == Stock(old(beans.beans), old(water.water))
    {
      this.beans := beans;
      this.water := water;
    }

    /** Brews one drink of `recipe` by checking both containers first and
        only then taking from each. */
    method Dispense(recipe: Recipe) returns (r: Result<nat>)
      requires Valid()
      modifies beans, water
      ensures Valid()
      ensures Brew(old(Contents()), recipe) == Brewed(r, Contents())
    {
      var haveBeans := beans.GetBeans();
      var haveWater := water.GetWater();
      if haveBeans < recipe.spoons {
        return Err(NoBeans);
      }
      if haveWater < recipe.millilitres {
        return Err(NoWater);
      }
      var usedBeans := beans.UseBeans(recipe.spoons);
      var usedWater := water.UseWater(recipe.millilitres);
      r := Ok(usedWater);
    }

    /** Makes a single espresso: 50 ml of coffee from 1 spoon and 50 ml of
        water, or NoBeans / NoWater with nothing taken. */
    method MakeEspresso() returns (r: Result<nat>)
      requires Valid()
      modifies beans, water
      ensures Valid()
      ensures Brew(old(Contents()), Single) == Brewed(r, Contents())
    {
      r := Dispense(Single);
    }

    /** Makes a double espresso: 100 ml of coffee from 2 spoons and 100 ml
        of water, or NoBeans / NoWater with nothing taken. */
    method MakeDoubleEspresso() returns (r: Result<nat>)
      requires Valid()
      modifies beans, water
      ensures Valid()
      ensures Brew(old(Contents()), Double) == Brewed(r, Contents())
    {
      r := Dispense(Double);
    }

    /** What the screen shows; reading it changes nothing. */
    function GetStatus(): Status
      reads this, beans, water
    {
      StatusOf(Contents())
    }

    /** The screen's text. */
    function GetStatusText(): string
      reads this, beans, water
    {
      Message(GetStatus())
    }
  }

  /** From 2 spoons and 0.10 L a double espresso makes 0.10 L, empties both
      containers, and the screen then asks for beans and water. */
  method DoubleEspressoEmptiesMachine() returns (coffee: Result<nat>, left: Stock, text: string)
    ensures coffee == Ok(100)
    ensures left == Stock(0, 0)
    ensures text == "Add beans and water"
  {
    var b := new BeansContainer(10, 2);
    var w := new WaterContainer(1000, 100);
    var m := new EspressoMachine(b, w);
    coffee := m.MakeDoubleEspresso();
    left := m.Contents();
    text := m.GetStatusText();
  }

  /** With no beans the machine refuses, whatever water it has, and both
      containers keep their stock. */
  method NoBeansTakesNothing(millilitres: nat) returns (coffee: Result<nat>, left: Stock)
    ensures coffee == Err(NoBeans)
    ensures left == Stock(0, millilitres)
  {
    var b := new BeansContainer(10, 0);
    var w := new WaterContainer(millilitres, millilitres);
    var m := new EspressoMachine(b, w);
    coffee := m.MakeEspresso();
    left := m.Contents();
  }

  /** With beans but less than 0.05 L of water the machine reports NoWater
      and both containers keep their stock. */
  method NoWaterTakesNothing(spoons: nat, millilitres: nat) returns (coffee: Result<nat>, left: Stock)
    requires 1 <= spoons && millilitres < 50
    ensures coffee == Err(NoWater)
    ensures left == Stock(spoons, millilitres)
  {
    var b := new BeansContainer(spoons, spoons);
    var w := new WaterContainer(millilitres, millilitres);
    var m := new EspressoMachine(b, w);
    coffee := m.MakeEspresso();
    left := m.Contents();
  }

  /** The screen for the stocks 0 / 0 L, 0 / 1 L, 5 / 0.01 L and 5 / 0.30 L:
      in the last case beans, not water, limit the count to 5. */
  lemma StatusExamples()
    ensures Message(StatusOf(Stock(0, 0))) == "Add beans and water"
    ensures Message(StatusOf(Stock(0, 1000))) == "Add beans"
    ensures Message(StatusOf(Stock(5, 10))) == "Add water"
    ensures Message(StatusOf(Stock(5, 300))) == "5 Espressos left"
  {
    assert Decimal(5) == "5";
  }
}
