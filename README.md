# Satisfactory production-chain calculator, modelled in Dafny

The calculator takes an item and a per-minute rate. It works out every
intermediate product and raw resource the item needs, and for each one it
reports the machine type that makes it, how many such machines are needed and
the per-minute rate they must supply. It also reports the total power draw. The
work is done inside `ProductionCalculator::run` by a demand-expansion engine
over three read-only tables:

- the recipes, one per item;
- the machine-type to item-list table (`machinexitems`);
- the per-machine power table.

`main` hands the engine one fixed catalog of these tables.

The project has four modules:

- `ProdCalc` (prodcalc.dfy) holds the data shapes:
  - the 18 items and 5 machine types, with their name parsers;
  - the raw-resource tag;
  - recipes, machines and the calculator's three tables;
  - the producer lookup (`find_map` over `machinexitems`), with the table's
    iteration order made an explicit parameter.
- `Expansion` (expansion.dfy) holds the expansion engine:
  - `Expand` is the source's imperative loop. It works a `seq` queue with a
    nested `while`/`for` over a snapshot of the queue (remove the front,
    append the children), and it updates a `map` aggregate and a power
    accumulator.
  - It is proved equal to `ExpandSpec`. That specification is a ghost
    first-in-first-out trace of the queue (`Trace`) folded by the
    insert-or-add merge (`Aggregate`) and the power charges (`PowerSum`).
  - Every `unwrap` that can panic becomes an `Err`, in the source's lookup
    order.
- `ExpansionProperties` (properties.dfy) proves what the engine guarantees for
  every catalog:
  - the queue is first-in-first-out;
  - closed forms for every item's record and for the power total;
  - machines always cover the rate demanded of them;
  - every record names the item's producer;
  - the result does not depend on the machine table's iteration order (given
    unique producers) or on the rank that witnesses termination.
- `Catalog` (catalog.dfy) holds the tables of `main` and what they guarantee:
  - unique producers, recipes keyed by their output, acyclic recipes, power
    entries;
  - complete queries: iron rods at 15 and 20, iron ore at 60, reinforced iron
    plates at 10;
  - the queries that abort: copper, steel and aluminium ingots.

Rates are natural numbers, because every rate in the catalog is whole. A
requested rate is the exact rational `num / den`. An f64 ceiling becomes
integer ceiling division.

Where the code and descriptions of the calculator differ, the model follows
the code:

- **Root record.** The root's record holds the rounded-up rate
  (machines × output rate), not the requested one. `IronRodAt20` shows this:
  a request for 20 per minute records 30.
- **Machine counts.** An item's machine count is a sum of per-branch ceilings.
  It is not the ceiling of the item's total rate over its output rate: it
  always covers the rate (`ExpandCovers`) but can exceed that ceiling.
  `ReinforcedIronPlateOverCounts` shows 3 iron ore miners where 2 cover 120
  per minute.
- **Power.** The power for a queue entry is charged at the consuming parent's
  machine count, not at the entry's own count (`ExpandTotals`, `Charged`).
  Reinforced iron plates at 10 per minute report 100 MW, although the
  reported machines draw 95 MW.
- **Raw root.** The root's inputs are always enqueued, even when the root is
  raw (`ExpandRootInputsFirst`, `IronOreAt60`). Iron ore's self-input at rate
  0 adds no machines but is charged 5 MW.
- **Lookup order.** For a queue entry, the producer and recipe lookups come
  before the raw check. A raw item without a recipe (copper ore, coal)
  therefore aborts the query (`CopperIngotFails`, `SteelIngotFails`).

## Model

| member | source | states |
|---|---|---|
| ProdCalc.ItemFromString | src/prodcalc/mod.rs:28-51 | a parsed item's name is the input string; no result only when no item has that name |
| ProdCalc.ItemFromStringExact | src/prodcalc/mod.rs:28-51 | the parser yields item `i` if and only if the string is `i`'s name |
| ProdCalc.ItemFromStringInjective | src/prodcalc/mod.rs:28-51 | two accepted strings that parse to the same item are equal |
| ProdCalc.RawResourcesExactly | src/prodcalc/mod.rs:53-59 | an item is raw if and only if it is iron ore, copper ore, coal, limestone or quartz ore |
| ProdCalc.MachineFromString | src/prodcalc/mod.rs:87-97 | a parsed machine type's name is the input string; no result only when no type has that name |
| ProdCalc.MachineFromStringExact | src/prodcalc/mod.rs:87-97 | the parser yields type `m` if and only if the string is `m`'s name |
| ProdCalc.MachineFromStringInjective | src/prodcalc/mod.rs:87-97 | two accepted strings that parse to the same machine type are equal |
| ProdCalc.FindProducer | src/prodcalc/mod.rs:210-221 | a found machine type is in the table and lists the item; nothing is found if and only if no machine type in the iteration order lists the item |
| ProdCalc.FindProducerUnique | src/prodcalc/mod.rs:210-221 | with unique producers, under any iteration order, the lookup finds `m` if and only if `m` lists the item |
| ProdCalc.FindProducerOrderIndependent | src/prodcalc/mod.rs:210-221 | with unique producers, two iteration orders give the same producer |
| Expansion.CeilDivIsCeiling | src/prodcalc/mod.rs:223-225 | the rounded-up quotient covers the demand, and one machine fewer does not |
| Expansion.RootMachinesIsCeiling | src/prodcalc/mod.rs:180 | the root's machine count is the least count whose output covers the requested rate |
| Expansion.InputEntries | src/prodcalc/mod.rs:198-202 | one queue entry per recipe input, in order, with the input's item and rate and the given multiplier |
| Expansion.Resolve | src/prodcalc/mod.rs:210-227 | an entry resolves if and only if it has a producer, a recipe and a power entry; the result holds what the lookups found; a missing producer, then a missing recipe, is the error, raw or not |
| Expansion.ResolveRoot | src/prodcalc/mod.rs:165-182 | the root resolves if and only if it has a recipe, a producer and a power entry; a missing recipe is reported first; the result holds the lookups and the rounded-up machine count |
| Expansion.Expand | src/prodcalc/mod.rs:163-254 | the imperative expansion returns exactly the report (or the first failing lookup) of the first-in-first-out specification `ExpandSpec` |
| Expansion.ProcessEntry | src/prodcalc/mod.rs:210-250 | one popped entry: the lookups' outcome, the insert-or-add merge, the parent-multiplier power charge, and the enqueued inputs (none for a raw item) |
| Expansion.Drain | src/prodcalc/mod.rs:204-254 | the snapshot rounds that remove the front and append the children compute the fold of the first-in-first-out trace, or stop at its first failing lookup |
| ExpansionProperties.TraceFifo | src/prodcalc/mod.rs:204-250 | the processed entries are the initial queue followed by every appended input, in the order appended, and each is what its lookups give |
| ExpansionProperties.TraceLength | src/prodcalc/mod.rs:241-250 | the number of processed entries is the initial queue's length plus the inputs of the non-raw entries; raw entries add nothing to the queue |
| ExpansionProperties.PowerSumAppend | src/prodcalc/mod.rs:226-227 | the power charged is additive over processed entries |
| ExpansionProperties.AggregateDomain | src/prodcalc/mod.rs:228-238 | an item is in the aggregate if and only if it was there initially or some processed entry is for it |
| ExpansionProperties.AggregateSums | src/prodcalc/mod.rs:228-238 | an item's count and rate are its initial values plus the sums of its entries' rounded-up counts and demanded rates |
| ExpansionProperties.AggregateMachine | src/prodcalc/mod.rs:228-238 | an item's machine type is the one stored at its first insertion and later merges never change it |
| ExpansionProperties.AggregateAt | src/prodcalc/mod.rs:228-238 | the aggregate in closed form: presence, summed count and rate, first-inserted machine type |
| ExpansionProperties.MachinesCoverDemand | src/prodcalc/mod.rs:223-238 | the summed per-branch ceilings of an item cover its summed demand |
| ExpansionProperties.ExpandTotals | src/prodcalc/mod.rs:163-254 | a successful query: the root's record holds the rounded-up count and the rounded-up rate plus its later entries; any other item holds exactly the sums of its entries; power is the root's charge plus every entry's parent-multiplier charge |
| ExpansionProperties.ExpandRootInputsFirst | src/prodcalc/mod.rs:198-202 | a successful query first processes the root recipe's inputs, in order, at the root's machine count, whether or not the root is raw |
| ExpansionProperties.AggregateCoversAt | src/prodcalc/mod.rs:223-238 | merging entries that carry their item's recipe keeps every item's machines covering its rate |
| ExpansionProperties.ExpandCovers | src/prodcalc/mod.rs:163-254 | every record of a successful query has a recipe, and its machines' output covers its rate |
| ExpansionProperties.ExpandProducers | src/prodcalc/mod.rs:163-254 | a successful query records the root, and every record names the machine type the producer lookup finds for the item |
| ExpansionProperties.TraceOrderIndependent | src/prodcalc/mod.rs:210-221 | with unique producers, the trace is the same under any two iteration orders of the machine table |
| ExpansionProperties.ResolveRootOrderIndependent | src/prodcalc/mod.rs:165-182 | with unique producers, the root's lookups are the same under any two iteration orders |
| ExpansionProperties.CompleteOrderIndependent | src/prodcalc/mod.rs:204-254 | draining the queue gives the same report under two orders whose traces agree |
| ExpansionProperties.ExpandOrderIndependent | src/prodcalc/mod.rs:163-254 | with unique producers, a query's result does not depend on the machine table's iteration order |
| ExpansionProperties.TraceRankIndependent | src/prodcalc/mod.rs:204-254 | the trace does not depend on which rank witnesses acyclicity |
| Catalog.ListedProducer | src/main.rs:76-107 | an item listed under a machine type has that type as its producer |
| Catalog.ProducerListed | src/main.rs:76-107 | each item's producer lists it; aluminium scrap and silica are listed nowhere |
| Catalog.CatalogUniqueProducers | src/main.rs:76-107 | no item is listed under two machine types |
| Catalog.CatalogProducers | src/main.rs:76-107 | under every iteration order, the producer lookup finds the listed machine type |
| Catalog.CatalogKeysMatchOutputs | src/main.rs:8-75 | every recipe is stored under its own output item |
| Catalog.RecipeKey | src/main.rs:8-75 | each recipe's output item is its key |
| Catalog.CatalogRecipeKeys | src/main.rs:8-75 | exactly twelve items have a recipe; coal, copper ore, limestone, quartz ore, aluminium scrap and silica have none |
| Catalog.CatalogPowerEntries | src/main.rs:76-130 | a machine type is in the machine table if and only if it has a power entry, of its own name and positive draw |
| Catalog.RawResourcesAreMined | src/main.rs:93-101 | the raw resources are exactly the miner's list |
| Catalog.RecipeRanked | src/main.rs:8-75 | each input of a non-raw recipe ranks below its output |
| Catalog.CatalogRanked | src/main.rs:8-75 | the catalog's recipe graph over non-raw items is acyclic |
| Catalog.CatalogCovers | src/main.rs:8-130 | in every successful query over the catalog, each record has a recipe, names the listed producer, and its machines cover its rate |
| Catalog.CatalogResolve | src/main.rs:8-130 | an entry for an item with a recipe and a producer resolves to that producer, the recipe and the producer's draw |
| Catalog.CatalogResolveRoot | src/main.rs:8-130 | the root of such an item resolves with the rounded-up machine count |
| Catalog.CatalogNoRecipe | src/main.rs:8-75 | an entry for an item with a producer and no recipe fails with a missing recipe |
| Catalog.CatalogNoProducer | src/main.rs:76-107 | an entry for an item no machine type lists fails with a missing producer |
| Catalog.IronRodAt15 | src/main.rs:9-20 | iron rods at 15 per minute: one constructor, one smelter at 15, one miner at 30, power 13, under every iteration order |
| Catalog.IronRodAt20 | src/prodcalc/mod.rs:184-191 | iron rods at 20 per minute: two constructors recorded at the rounded-up rate 30; one smelter; one miner; power 21 |
| Catalog.IronOreSentinel | src/main.rs:17-20 | iron ore's recipe lists itself at rate 0, so its entry adds no machines, no rate and no children but is charged the miner's draw per parent machine |
| Catalog.IronOreAt60 | src/main.rs:17-20 | iron ore at 60 per minute: one miner at 60, and power 10, as the self-input is charged once more |
| Catalog.CopperIngotFails | src/main.rs:53-59 | a copper ingot query at any rate aborts on copper ore's missing recipe |
| Catalog.SteelIngotFails | src/main.rs:39-45 | a steel ingot query at any rate aborts on coal's missing recipe after its iron ore resolves |
| Catalog.AluminiumIngotFails | src/main.rs:46-52 | an aluminium ingot query at any rate aborts on scrap's missing producer |
| Catalog.ReinforcedIronPlateAt10 | src/main.rs:32-38 | reinforced iron plates at 10 per minute: the six records with merged ingot and ore counts, and power 100 |
| Catalog.ReinforcedIronPlateOverCounts | src/prodcalc/mod.rs:223-238 | the plate query reports more iron ore miners than the ceiling of iron ore's total rate over its output |

## Left out

- The interactive loop (src/prodcalc/mod.rs:134-162, 256) is pure I/O and is
  not modelled. It covers the prompts, reading standard input, the `q` exit,
  the item and quantity parsing calls and the `Debug` printing of the report.
  `Expand` takes the parsed item and the quantity as parameters.
- Floating point is not modelled. Rates are naturals and a requested rate is a
  non-negative rational. The source's `f64` quantity is never validated:
  - a zero quantity is modelled and yields zero machines;
  - negative, NaN and infinite quantities cannot be expressed;
  - rounding error is absent.
- ProdCalc.Recipe: output rates are positive by type. The source does not
  check this, and a zero output rate would divide by zero.
- Expansion.Expand: counts are unbounded naturals. Two things in the source
  only differ above 4294967295 machines, and neither is modelled:
  - the saturating `as u32` casts;
  - the `u32` addition `*im += item_machines as u32` (src/prodcalc/mod.rs:231),
    which overflows: a debug build panics and a release build wraps.
- Expansion.Expand: the machine table's iteration order is an explicit
  `order` parameter. The order of `HashMap` iteration is left to the standard
  library, so it is not modelled. Every result is proved independent of it
  when producers are unique, as they are in the catalog.
- Expansion.Expand: the model requires a rank under which every input of every
  non-raw recipe ranks below its output, so the whole catalog's non-raw recipe
  graph is acyclic. In the source, only a query whose expansion reaches a
  cycle of non-raw items with successful lookups never terminates. The rank is
  global, so the model also excludes catalogs with a cycle that a query never
  reaches, on which the source still answers that query (on a catalog where
  iron rods need screws, iron ore at 60 still gives one miner and 10 MW).
- A panicking `unwrap` aborts the whole interactive process in the source. The
  model returns an `Err` naming the missing lookup instead.
- `ProductionCalculator::new`, `Recipe::new` and `Machine::new` only store
  their arguments. They are the datatype constructors.
