/** The recipes and the all-or-nothing brewing step, as functions of the
    machine's stock: beans in spoons, water in millilitres. */
module Brewing {
  import opened Failures

  /** What one drink consumes. */
  datatype Recipe = Recipe(spoons: nat, millilitres: nat)

  /** A single espresso: 1 spoon and 0.05 L. */
  const Single := Recipe(1, 50)

  /** A double espresso: 2 spoons and 0.10 L. */
  const Double := Recipe(2, 100)

  /** The whole state of the machine: the contents of its two containers. */
  datatype Stock = Stock(beans: nat, water: nat)

  /** The result of a brew (millilitres of coffee, or the failure) and the stock afterwards. */
  datatype Brewed = Brewed(result: Result<nat>, after: Stock)

  /** Brews `recipe` from `s`. Both resources are checked before either is
      taken; a shortage of beans is reported before a shortage of water, and
      a failed brew leaves the stock as it was. */
  function Brew(s: Stock, recipe: Recipe): (b: Brewed)
    ensures b.result.Ok? <==> recipe.spoons <= s.beans && recipe.millilitres <= s.water
    ensures b.result == Err(NoBeans) <==> s.beans < recipe.spoons
    ensures b.result == Err(NoWater) <==> recipe.spoons <= s.beans && s.water < recipe.millilitres
    ensures b.result.Ok? ==> b.result.value == recipe.millilitres
    ensures b.result.Ok? ==> b.after.beans + recipe.spoons == s.beans && b.after.water + recipe.millilitres == s.water
    ensures b.result.Err? ==> b.after == s
  {
    if s.beans < recipe.spoons then Brewed(Err(NoBeans), s)
    else if s.water < recipe.millilitres then Brewed(Err(NoWater), s)
    else Brewed(Ok(recipe.millilitres), Stock(s.beans - recipe.spoons, s.water - recipe.millilitres))
  }

  function Min(a: nat, b: nat): nat
  {
    if a <= b then a else b
  }

  /** How many single espressos can be brewed one after another from `s`
      before a brew fails. */
  function Makeable(s: Stock): nat
    decreases s.beans
  {
    var b := Brew(s, Single);
    if b.result.Ok? then 1 + Makeable(b.after) else 0
  }

  /** The count of successive singles is set by whichever resource runs out
      first: floor(min(beans / 1 spoon, water / 0.05 L)). */
  lemma {:induction false} MakeableIsLimitingResource(s: Stock)
    ensures Makeable(s) == Min(s.beans / Single.spoons, s.water / Single.millilitres)
    decreases s.beans
  {
    var b := Brew(s, Single);
    if b.result.Ok? {
      MakeableIsLimitingResource(b.after);
      assert b.after.water / 50 == s.water / 50 - 1;
    }
  }

  /** A double espresso succeeds exactly when two singles in a row would,
      and then leaves the same stock and makes as much coffee; unlike two
      singles, a failed double takes nothing. */
  lemma DoubleIsTwoSingles(s: Stock)
    ensures var first := Brew(s, Single);
            var second := Brew(first.after, Single);
            var double := Brew(s, Double);
            (double.result.Ok? <==> first.result.Ok? && second.result.Ok?) &&
            (double.result.Ok? ==> double.after == second.after &&
                                   double.result.value == first.result.value + second.result.value) &&
            (double.result.Err? ==> double.after == s)
  {
  }
}
