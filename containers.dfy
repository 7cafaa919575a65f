/** The two depletable containers of the machine: beans counted in spoons,
    water counted in millilitres. Both follow the same stock discipline,
    stated once by the functions Add and Use. */
module Containers {
  import opened Failures

  /** The stock after adding `amount` to a container holding `stock` of at
      most `capacity`; an addition that would overflow is refused. */
  function Add(stock: nat, capacity: nat, amount: nat): (r: Result<nat>)
    ensures r.Ok? <==> stock + amount <= capacity
    ensures r.Ok? ==> r.value - amount == stock && r.value <= capacity
    ensures r.Err? ==> r.error == ContainerFull
  {
    if stock + amount <= capacity then Ok(stock + amount) else Err(ContainerFull)
  }

  /** What a take of `amount` from `stock` removes, and what it leaves. */
  datatype Taken = Taken(used: nat, left: nat)

  /** Taking more than the stock removes all of it: the amount used never
      exceeds the request, nothing is lost, and a short take empties the stock. */
  function Use(stock: nat, amount: nat): (r: Taken)
    ensures r.used <= amount && r.used + r.left == stock
    ensures r.used < amount ==> r.left == 0
  {
    if amount <= stock then Taken(amount, stock - amount) else Taken(stock, 0)
  }

  /** The two conditions in Use's contract fix its result: the clamp is the
      only behaviour that satisfies them. */
  lemma UseIsDetermined(stock: nat, amount: nat, t: Taken)
    requires t.used <= amount && t.used + t.left == stock
    requires t.used < amount ==> t.left == 0
    ensures t == Use(stock, amount)
  {
  }

  /** Taking back exactly what was just added restores the old stock. */
  lemma UseUndoesAdd(stock: nat, capacity: nat, amount: nat)
    requires Add(stock, capacity, amount).Ok?
    ensures Use(Add(stock, capacity, amount).value, amount) == Taken(amount, stock)
  {
  }

  /** A container of spoons of ground coffee. */
  class BeansContainer {
    var beans: nat
    const capacity: nat

    ghost predicate Valid()
      reads this
    {
      beans <= capacity
    }

    constructor (capacity: nat, beans: nat)
      requires beans <= capacity
      ensures Valid()
      ensures this.capacity == capacity && this.beans == beans
    {
      this.capacity := capacity;
      this.beans := beans;
    }

    /** Adds `numSpoons`; fails with ContainerFull, changing nothing, when
        the container cannot hold them. */
    method AddBeans(numSpoons: nat) returns (r: Outcome)
      requires Valid()
      modifies this
      ensures Valid()
      ensures r.Pass? <==> old(beans) + numSpoons <= capacity
      ensures r.Pass? ==> beans == old(beans) + numSpoons
      ensures r.Fail? ==> r.error == ContainerFull && beans == old(beans)
    {
      match Add(beans, capacity, numSpoons)
      case Ok(stock) =>
        beans := stock;
        r := Pass;
      case Err(e) =>
        r := Fail(e);
    }

    /** Removes up to `numSpoons` and returns how many were removed. */
    method UseBeans(numSpoons: nat) returns (used: nat)
      requires Valid()
      modifies this
      ensures Valid()
      ensures Taken(used, beans) == Use(old(beans), numSpoons)
      ensures used <= numSpoons && beans == old(beans) - used
    {
      var t := Use(beans, numSpoons);
      used := t.used;
      beans := t.left;
    }

    /** The spoons left; reading them changes nothing. */
    function GetBeans(): (n: nat)
      reads this
      requires Valid()
      ensures n <= capacity
    {
      beans
    }
  }

  /** A water tank, measured in millilitres. */
  class WaterContainer {
    var water: nat
    const capacity: nat

    ghost predicate Valid()
      reads this
    {
      water <= capacity
    }

    constructor (capacity: nat, water: nat)
      requires water <= capacity
      ensures Valid()
      ensures this.capacity == capacity && this.water == water
    {
      this.capacity := capacity;
      this.water := water;
    }

    /** Adds `millilitres`; fails with ContainerFull, changing nothing, when
        the tank cannot hold them. */
    method AddWater(millilitres: nat) returns (r: Outcome)
      requires Valid()
      modifies this
      ensures Valid()
      ensures r.Pass? <==> old(water) + millilitres <= capacity
      ensures r.Pass? ==> water == old(water) + millilitres
      ensures r.Fail? ==> r.error == ContainerFull && water == old(water)
    {
      match Add(water, capacity, millilitres)
      case Ok(stock) =>
        water := stock;
        r := Pass;
      case Err(e) =>
        r := Fail(e);
    }

    /** Removes up to `millilitres` and returns how much was removed. */
    method UseWater(millilitres: nat) returns (used: nat)
      requires Valid()
      modifies this
      ensures Valid()
      ensures Taken(used, water) == Use(old(water), millilitres)
      ensures used <= millilitres && water == old(water) - used
    {
      var t := Use(water, millilitres);
      used := t.used;
      water := t.left;
    }

    /** The millilitres left; reading them changes nothing. */
    function GetWater(): (n: nat)
      reads this
      requires Valid()
      ensures n <= capacity
    {
      water
    }
  }
}
