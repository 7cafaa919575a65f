# Espresso machine — a verified Dafny model

The repository declares, as PHP interfaces with doc-comments, an espresso
machine built from two depletable containers:

- a `BeansContainer` holding whole spoons of ground coffee;
- a `WaterContainer` holding litres of water;
- an `EspressoMachineInterface` that brews a single espresso (1 spoon, 0.05 L)
  or a double (2 spoons, 0.10 L), failing with `NoBeansException` or
  `NoWaterException`, and shows one of four status messages in a fixed order
  of preference: "Add beans and water", "Add beans", "Add water",
  "{int} Espressos left".

The interfaces have no bodies, so this project is a reference implementation
that meets them, with proofs that it does what the doc-comments promise.

Modelling decisions:

- Water is counted in integer millilitres, so 0.05 L is 50 and 0.10 L is 100
  and the recipe arithmetic and the count on the screen are exact. Brewing
  returns the millilitres of coffee made (50 or 100).
- Each container has a capacity, given to its constructor (the source names
  no number); an addition that would exceed it fails with `ContainerFull` and
  changes nothing.
- `useBeans` / `useWater` take at most what is there and return what they took.
- Brewing checks both containers before taking from either. When both are
  short, the beans shortage is reported, following the order in which the
  exceptions are listed and the status order.
- The exceptions are one datatype `Error = NoBeans | NoWater | ContainerFull`;
  operations return `Result` (`Ok` / `Err`) or `Outcome` (`Pass` / `Fail`).
- The status is a datatype `Status`; `Message` renders it, writing the count
  in decimal.

Files, one module each: `failures.dfy` (errors), `containers.dfy` (the two
container classes and the stock functions `Add` / `Use` they follow),
`brewing.dfy` (recipes and the all-or-nothing `Brew`), `display.dfy` (status
and its text), `machine.dfy` (the machine class and example runs).

## Model

| member | source | states |
|---|---|---|
| Containers.Add | ExpressoMachineInterface.php:29-38 | an addition succeeds exactly when the new stock fits the capacity, and then raises the stock by exactly the amount; otherwise it reports ContainerFull |
| Containers.Use | ExpressoMachineInterface.php:40-47 | the amount used is never more than requested, used plus left equals the old stock, and a short take (less than requested) empties the stock |
| Containers.UseIsDetermined | ExpressoMachineInterface.php:40-47 | the clamp is the only behaviour meeting Use's contract |
| Containers.UseUndoesAdd | ExpressoMachineInterface.php:29-47 | using exactly the amount just added takes all of it and restores the old stock |
| Containers.BeansContainer.constructor | ExpressoMachineInterface.php:27-55 | a container starts within its capacity with the given stock |
| Containers.BeansContainer.AddBeans | ExpressoMachineInterface.php:29-38 | stock stays within capacity; success exactly when the spoons fit, then stock grows by exactly that number; on ContainerFull stock is unchanged |
| Containers.BeansContainer.UseBeans | ExpressoMachineInterface.php:40-47 | returns no more spoons than requested, stock never goes below zero and drops by exactly the returned number |
| Containers.BeansContainer.GetBeans | ExpressoMachineInterface.php:49-54 | the reported spoons are within capacity; being a function it changes nothing |
| Containers.WaterContainer.constructor | ExpressoMachineInterface.php:57-85 | a tank starts within its capacity with the given volume |
| Containers.WaterContainer.AddWater | ExpressoMachineInterface.php:59-68 | volume stays within capacity; success exactly when the water fits, then volume grows by exactly that amount; on ContainerFull volume is unchanged |
| Containers.WaterContainer.UseWater | ExpressoMachineInterface.php:70-77 | returns no more than requested, volume never goes below zero and drops by exactly the returned amount |
| Containers.WaterContainer.GetWater | ExpressoMachineInterface.php:79-84 | the reported volume is within capacity; being a function it changes nothing |
| Brewing.Brew | ExpressoMachineInterface.php:87-111 | a brew succeeds exactly when both resources cover the recipe, returning the recipe's volume and deducting exactly the recipe; NoBeans exactly when beans are short, NoWater exactly when beans suffice and water is short; a failure leaves the stock unchanged |
| Brewing.MakeableIsLimitingResource | ExpressoMachineInterface.php:87-89 | the number of singles brewable one after another is floor(min(beans / 1 spoon, water / 0.05 L)) |
| Brewing.DoubleIsTwoSingles | ExpressoMachineInterface.php:87-111 | a double succeeds exactly when two singles in a row would, leaving the same stock and making as much coffee; a failed double takes nothing |
| Display.StatusOf | ExpressoMachineInterface.php:113-124 | the status is "add beans and water" exactly when both resources are short of a single, "add beans" exactly when only beans are, "add water" exactly when only water is; otherwise the count is at least one and is the largest number of singles both resources cover |
| Display.StatusCountsSingles | ExpressoMachineInterface.php:113-124 | the count shown equals the number of singles that can really be brewed in a row, and the other statuses mean none can |
| Display.StatusPredictsBrew | ExpressoMachineInterface.php:93-124 | a single succeeds exactly when a count is shown, a double exactly when the count is at least two; NoBeans exactly under the two beans statuses, NoWater exactly under "add water" |
| Display.SingleLowersCount | ExpressoMachineInterface.php:93-124 | each successful single lowers the count by one, and the last one leaves a refill status |
| Display.Decimal | ExpressoMachineInterface.php:120 | the count is written as a non-empty string of decimal digits |
| Display.DecimalRoundTrip | ExpressoMachineInterface.php:120 | reading back the written digits gives the count |
| Display.MessageIsUnambiguous | ExpressoMachineInterface.php:113-124 | different statuses have different texts, so the screen shows exactly one of the four messages and its count |
| Machine.EspressoMachine.constructor | ExpressoMachineInterface.php:91-125 | the machine is built on the two given containers, keeping their stock |
| Machine.EspressoMachine.Dispense | ExpressoMachineInterface.php:87-111 | checking both containers and then taking from each has exactly the effect and result of Brew on the old stock |
| Machine.EspressoMachine.MakeEspresso | ExpressoMachineInterface.php:93-101 | the result and the new stock are those of Brew with the single recipe (1 spoon, 50 ml) |
| Machine.EspressoMachine.MakeDoubleEspresso | ExpressoMachineInterface.php:103-111 | the result and the new stock are those of Brew with the double recipe (2 spoons, 100 ml) |
| Machine.DoubleEspressoEmptiesMachine | ExpressoMachineInterface.php:89-117 | from 2 spoons and 0.10 L a double makes 100 ml, empties both containers, and the screen reads "Add beans and water" |
| Machine.NoBeansTakesNothing | ExpressoMachineInterface.php:93-101 | with no beans a single fails with NoBeans whatever the water, and both stocks are unchanged |
| Machine.NoWaterTakesNothing | ExpressoMachineInterface.php:93-101 | with beans but under 0.05 L a single fails with NoWater, and both stocks are unchanged |
| Machine.StatusExamples | ExpressoMachineInterface.php:113-124 | the texts for 0 spoons / 0 L, 0 / 1 L, 5 / 0.01 L and 5 / 0.30 L; the last reads "5 Espressos left", beans being the limit |

## Left out

- Floating-point litres: water is whole millilitres, so amounts finer than 1 ml and float rounding are not modelled.
- Negative amounts: `addBeans`, `useBeans`, `addWater` and `useWater` take natural numbers, because the interface does not say what a negative amount means.
- The exception class hierarchy (`EspressoMachineException`, `ContainerException` and their subclasses) is flattened into one error datatype; catching by superclass is not modelled.
- Interfaces and namespaces: one concrete class per interface; other implementations are not modelled.
- Capacity values: the source names none, so they are constructor parameters.
- Concurrency: every operation is sequential; the interface says nothing about locking.
- Machine.EspressoMachine.GetStatus and Machine.EspressoMachine.GetStatusText carry no contract of their own: they are `StatusOf` and `Message` applied to the machine's stock, whose properties are stated on those functions.
