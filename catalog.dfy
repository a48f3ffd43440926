/** The catalog that `main` hands to the calculator (src/main.rs:8-130): twelve
    recipes, the machine type that makes each item, and each machine type's
    power draw. The lemmas state the facts about these tables that the
    expansion engine relies on (unique producers, acyclic recipes, recipes
    keyed by their output) and what whole queries over them report, for every
    iteration order of the machine table. */
module Catalog {
  import opened ProdCalc
  import opened Expansion
  import opened ExpansionProperties

  /** `recipes` (src/main.rs:8-75). */
  const Recipes: map<Item, Recipe> := map[
    IronIngot := Recipe(IronIngot, 30, [Input(IronOre, 30)]),
    IronRod := Recipe(IronRod, 15, [Input(IronIngot, 15)]),
    IronOre := Recipe(IronOre, 60, [Input(IronOre, 0)]),
    Screw := Recipe(Screw, 40, [Input(IronRod, 10)]),
    IronPlate := Recipe(IronPlate, 20, [Input(IronIngot, 30)]),
    ReinforcedIronPlate := Recipe(ReinforcedIronPlate, 5, [Input(IronPlate, 30), Input(Screw, 60)]),
    SteelIngot := Recipe(SteelIngot, 45, [Input(IronOre, 45), Input(Coal, 45)]),
    AluminiumIngot := Recipe(AluminiumIngot, 60, [Input(AluminiumScrap, 90), Input(Sillica, 75)]),
    CopperIngot := Recipe(CopperIngot, 30, [Input(CopperOre, 30)]),
    Wire := Recipe(Wire, 30, [Input(CopperIngot, 15)]),
    Cable := Recipe(Cable, 30, [Input(Wire, 60)]),
    CopperSheet := Recipe(CopperSheet, 10, [Input(CopperIngot, 20)])
  ]

  /** `machinexitems` (src/main.rs:76-107). */
  const MachineItems: map<MachineName, seq<Item>> := map[
    Smelter := [IronIngot, CopperIngot],
    Constructor := [IronRod, Screw, IronPlate, Wire, Cable, CopperSheet],
    MinerMk1 := [IronOre, CopperOre, QuartzOre, Coal, LimeStone],
    Assembler := [ReinforcedIronPlate],
    Foundry := [SteelIngot, AluminiumIngot]
  ]

  /** `machines` (src/main.rs:109-130). */
  const Machines: map<MachineName, Machine> := map[
    Smelter := Machine(Smelter, 4),
    Constructor := Machine(Constructor, 4),
    MinerMk1 := Machine(MinerMk1, 5),
    Assembler := Machine(Assembler, 16),
    Foundry := Machine(Foundry, 16)
  ]

  const Main: Calculator := Calculator(Recipes, MachineItems, Machines)

  /** The producer of each item as the machine table lists it, read item by item. */
  function ProducerOf(x: Item): Option<MachineName> {
    match x
    case IronIngot | CopperIngot => Some(Smelter)
    case IronRod | Screw | IronPlate | Wire | Cable | CopperSheet => Some(Constructor)
    case IronOre | CopperOre | QuartzOre | Coal | LimeStone => Some(MinerMk1)
    case ReinforcedIronPlate => Some(Assembler)
    case SteelIngot | AluminiumIngot => Some(Foundry)
    case AluminiumScrap | Sillica => None
  }

  /** An item listed under a machine type has that type as its producer. */
  lemma ListedProducer(m: MachineName, x: Item)
    requires m in MachineItems && x in MachineItems[m]
    ensures ProducerOf(x) == Some(m)
  {
    match m
    case Smelter => assert MachineItems[m] == [IronIngot, CopperIngot];
    case Constructor => assert MachineItems[m] == [IronRod, Screw, IronPlate, Wire, Cable, CopperSheet];
    case MinerMk1 => assert MachineItems[m] == [IronOre, CopperOre, QuartzOre, Coal, LimeStone];
    case Assembler => assert MachineItems[m] == [ReinforcedIronPlate];
    case Foundry => assert MachineItems[m] == [SteelIngot, AluminiumIngot];
  }

  /** An item's producer lists it, and an item without one is listed nowhere. */
  lemma ProducerListed(x: Item)
    ensures ProducerOf(x).Some? ==> ProducerOf(x).value in MachineItems && x in MachineItems[ProducerOf(x).value]
    ensures ProducerOf(x).None? ==> forall m :: m in MachineItems ==> x !in MachineItems[m]
  {
    if ProducerOf(x).None? {
      forall m | m in MachineItems
        ensures x !in MachineItems[m]
      {
        if x in MachineItems[m] {
          ListedProducer(m, x);
        }
      }
    }
  }

  /** No item is listed under two machine types. */
  lemma CatalogUniqueProducers()
    ensures UniqueProducers(MachineItems)
  {
    forall m1, m2, x | m1 in MachineItems && m2 in MachineItems && x in MachineItems[m1] && x in MachineItems[m2]
      ensures m1 == m2
    {
      ListedProducer(m1, x);
      ListedProducer(m2, x);
    }
  }

  /** Whatever order the machine table is iterated in, the producer lookup
      finds the machine type listed for the item, and none for scrap and silica. */
  lemma CatalogProducers(order: seq<MachineName>, x: Item)
    requires IsOrder(order, MachineItems)
    ensures FindProducer(MachineItems, order, x) == ProducerOf(x)
  {
    ProducerListed(x);
    match ProducerOf(x)
    case Some(m) =>
      CatalogUniqueProducers();
      FindProducerUnique(MachineItems, order, x, m);
    case None =>
      assert forall k :: 0 <= k < |order| && order[k] in MachineItems ==> x !in MachineItems[order[k]];
  }

  /** Every recipe is filed under its own output item. */
  lemma CatalogKeysMatchOutputs()
    ensures KeysMatchOutputs(Main)
  {
    forall i | i in Main.recipes
      ensures Main.recipes[i].outItem == i
    {
      RecipeKey(i);
    }
  }

  /** One recipe's key is its output item. */
  lemma RecipeKey(i: Item)
    requires i in Recipes
    ensures Recipes[i].outItem == i
  {
    match i
    case IronIngot =>
    case CopperIngot =>
    case IronRod =>
    case IronOre =>
    case CopperOre =>
    case Screw =>
    case IronPlate =>
    case ReinforcedIronPlate =>
    case AluminiumIngot =>
    case Wire =>
    case Cable =>
    case CopperSheet =>
    case SteelIngot =>
    case Coal =>
    case LimeStone =>
    case QuartzOre =>
    case AluminiumScrap =>
    case Sillica =>
  }

  /** The items with a recipe: every item but the four raw resources besides
      iron ore and the two aluminium inputs. */
  lemma CatalogRecipeKeys()
    ensures Main.recipes.Keys == {IronIngot, IronRod, IronOre, Screw, IronPlate, ReinforcedIronPlate, SteelIngot,
      AluminiumIngot, CopperIngot, Wire, Cable, CopperSheet}
  {
  }

  /** Every machine type of the machine table has a power entry of its own name. */
  lemma CatalogPowerEntries(m: MachineName)
    ensures m in Main.machineItems <==> m in Main.machines
    ensures m in Main.machines ==> Main.machines[m].name == m && Main.machines[m].power > 0
  {
  }

  /** The raw resources are exactly what the miner is listed for. */
  lemma RawResourcesAreMined(i: Item)
    ensures IsRawResource(i) <==> i in Main.machineItems[MinerMk1]
  {
  }

  /** A rank for the catalog: each non-raw recipe's inputs rank lower. */
  function CatalogRank(i: Item): nat {
    match i
    case IronOre | CopperOre | Coal | LimeStone | QuartzOre | AluminiumScrap | Sillica => 0
    case IronIngot | CopperIngot | SteelIngot | AluminiumIngot => 1
    case IronRod | IronPlate | Wire | CopperSheet => 2
    case Screw | Cable => 3
    case ReinforcedIronPlate => 4
  }

  /** The catalog's recipe graph is acyclic (the iron ore recipe, which lists
      itself, is raw and never expanded). */
  lemma CatalogRanked()
    ensures Ranked(Main, CatalogRank)
  {
    forall i, k | i in Recipes && !IsRawResource(i) && 0 <= k < |Recipes[i].inputs|
      ensures CatalogRank(Recipes[i].inputs[k].item) < CatalogRank(i)
    {
      RecipeRanked(i, k);
    }
  }

  /** One recipe input ranks below the recipe's output. */
  lemma RecipeRanked(i: Item, k: int)
    requires i in Recipes && !IsRawResource(i) && 0 <= k < |Recipes[i].inputs|
    ensures CatalogRank(Recipes[i].inputs[k].item) < CatalogRank(i)
  {
    match i
    case IronIngot => assert Recipes[i].inputs == [Input(IronOre, 30)];
    case IronRod => assert Recipes[i].inputs == [Input(IronIngot, 15)];
    case Screw => assert Recipes[i].inputs == [Input(IronRod, 10)];
    case IronPlate => assert Recipes[i].inputs == [Input(IronIngot, 30)];
    case ReinforcedIronPlate => assert Recipes[i].inputs == [Input(IronPlate, 30), Input(Screw, 60)];
    case SteelIngot => assert Recipes[i].inputs == [Input(IronOre, 45), Input(Coal, 45)];
    case AluminiumIngot => assert Recipes[i].inputs == [Input(AluminiumScrap, 90), Input(Sillica, 75)];
    case CopperIngot => assert Recipes[i].inputs == [Input(CopperOre, 30)];
    case Wire => assert Recipes[i].inputs == [Input(CopperIngot, 15)];
    case Cable => assert Recipes[i].inputs == [Input(Wire, 60)];
    case CopperSheet => assert Recipes[i].inputs == [Input(CopperIngot, 20)];
  }

  /** Every item a successful query over the catalog reports has a recipe, is
      made by the machine type listed for it, and its machines cover its rate. */
  lemma CatalogCovers(order: seq<MachineName>, root: Item, qty: Quantity, rep: Report)
    requires IsOrder(order, MachineItems)
    ensures Ranked(Main, CatalogRank)
    ensures ExpandSpec(Main, order, CatalogRank, root, qty) == Ok(rep) ==>
      forall x :: x in rep.needed ==>
        x in Recipes && ProducerOf(x) == Some(rep.needed[x].machine)
        && rep.needed[x].count * Recipes[x].outRate >= rep.needed[x].rate
  {
    CatalogRanked();
    CatalogKeysMatchOutputs();
    if ExpandSpec(Main, order, CatalogRank, root, qty) == Ok(rep) {
      ExpandCovers(Main, order, CatalogRank, root, qty, rep);
      ExpandProducers(Main, order, CatalogRank, root, qty, rep);
      forall x | x in rep.needed
        ensures ProducerOf(x) == Some(rep.needed[x].machine)
      {
        CatalogProducers(order, x);
      }
    }
  }

  /** A queue entry for an item with a recipe and a producer resolves to that
      producer, the item's recipe and the producer's power draw. */
  lemma CatalogResolve(order: seq<MachineName>, s: Step)
    requires IsOrder(order, MachineItems)
    requires s.entry.item in Recipes && ProducerOf(s.entry.item) == Some(s.machine)
    requires s.recipe == Recipes[s.entry.item] && s.power == Machines[s.machine].power
    ensures Resolve(Main, order, s.entry) == Ok(s)
  {
    CatalogProducers(order, s.entry.item);
  }

  /** The root of a query for an item with a recipe and a producer resolves to
      that producer, the item's recipe, the producer's power draw and the
      rounded-up machine count. */
  lemma CatalogResolveRoot(order: seq<MachineName>, root: Item, qty: Quantity, rs: RootStep)
    requires IsOrder(order, MachineItems)
    requires root in Recipes && ProducerOf(root) == Some(rs.machine)
    requires rs.recipe == Recipes[root] && rs.power == Machines[rs.machine].power
    requires rs.machines == RootMachines(qty, rs.recipe)
    ensures ResolveRoot(Main, order, root, qty) == Ok(rs)
  {
    CatalogProducers(order, root);
  }

  /** An entry for an item with a producer but no recipe fails with `NoRecipe`. */
  lemma CatalogNoRecipe(order: seq<MachineName>, e: Entry)
    requires IsOrder(order, MachineItems)
    requires e.item !in Recipes && ProducerOf(e.item).Some?
    ensures Resolve(Main, order, e) == Err(NoRecipe(e.item))
  {
    CatalogProducers(order, e.item);
  }

  /** An entry for an item no machine type is listed for fails with `NoProducer`. */
  lemma CatalogNoProducer(order: seq<MachineName>, e: Entry)
    requires IsOrder(order, MachineItems)
    requires ProducerOf(e.item).None?
    ensures Resolve(Main, order, e) == Err(NoProducer(e.item))
  {
    CatalogProducers(order, e.item);
  }

  /** Iron rods at 15 per minute: one constructor, one smelter, one miner; the
      root's inputs are charged at the root's machine count (1 x 4 + 1 x 5). */
  lemma IronRodAt15(order: seq<MachineName>)
    requires IsOrder(order, MachineItems)
    ensures Ranked(Main, CatalogRank)
    ensures ExpandSpec(Main, order, CatalogRank, IronRod, Quantity(15, 1)) == Ok(Report(map[
      IronRod := Requirement(Constructor, 1, 15),
      IronIngot := Requirement(Smelter, 1, 15),
      IronOre := Requirement(MinerMk1, 1, 30)], 13))
  {
    CatalogRanked();
    var rs := RootStep(Constructor, Recipes[IronRod], 4, 1);
    var s1 := Step(Entry(IronIngot, 15, 1), Smelter, Recipes[IronIngot], 4);
    var s2 := Step(Entry(IronOre, 30, 1), MinerMk1, Recipes[IronOre], 5);
    IronRodRoot(order, rs, s1);
    IronRodSteps(order, 1, 1, s1, s2);
    IronRodChildren(1, s1, s2);
    TraceCons(Main, order, CatalogRank, s2.entry, [], s2, [], []);
    TraceCons(Main, order, CatalogRank, s1.entry, [], s1, [s2.entry] + [], [s2] + []);
    ExpandSpecOk(Main, order, CatalogRank, IronRod, Quantity(15, 1), rs, [s1] + ([s2] + []));
    IronRodReport(rs, s1, s2);
  }

  /** The root of the iron rod query at 15: one constructor, whose one ingot
      entry needs one smelter. */
  lemma IronRodRoot(order: seq<MachineName>, rs: RootStep, s1: Step)
    requires IsOrder(order, MachineItems)
    requires rs == RootStep(Constructor, Recipes[IronRod], 4, 1)
    requires s1 == Step(Entry(IronIngot, 15, 1), Smelter, Recipes[IronIngot], 4)
    ensures ResolveRoot(Main, order, IronRod, Quantity(15, 1)) == Ok(rs)
    ensures RootQueue(rs) == [s1.entry] + [] && StepMachines(s1) == 1
  {
    assert RootMachines(Quantity(15, 1), Recipes[IronRod]) == 1 by {
      assert Recipes[IronRod].outRate == 15 && CeilDiv(15, 15) == 1;
    }
    assert StepMachines(s1) == 1 by {
      assert Recipes[IronIngot].outRate == 30 && Demand(s1) == 15 && CeilDiv(15, 30) == 1;
    }
    CatalogResolveRoot(order, IronRod, Quantity(15, 1), rs);
  }

  /** An iron rod query's entries resolve to the smelter and the miner. */
  lemma IronRodSteps(order: seq<MachineName>, m1: nat, m2: nat, s1: Step, s2: Step)
    requires IsOrder(order, MachineItems)
    requires s1 == Step(Entry(IronIngot, 15, m1), Smelter, Recipes[IronIngot], 4)
    requires s2 == Step(Entry(IronOre, 30, m2), MinerMk1, Recipes[IronOre], 5)
    ensures Resolve(Main, order, s1.entry) == Ok(s1) && Resolve(Main, order, s2.entry) == Ok(s2)
  {
    CatalogResolve(order, s1);
    CatalogResolve(order, s2);
  }

  /** The ingot enqueues its ore at the ingot's machine count, and the ore nothing.
      The queues are written `rest + Children(s)` and `[e] + rest`, the forms
      `TraceCons` takes, so that chaining it needs no sequence reasoning. */
  lemma IronRodChildren(m1: nat, s1: Step, s2: Step)
    requires s1 == Step(Entry(IronIngot, 15, m1), Smelter, Recipes[IronIngot], 4)
    requires s2 == Step(Entry(IronOre, 30, StepMachines(s1)), MinerMk1, Recipes[IronOre], 5)
    ensures [] + Children(s1) == [s2.entry] + [] && [] + Children(s2) == []
  {
  }

  /** Folding the iron rod steps into the report. */
  lemma IronRodReport(rs: RootStep, s1: Step, s2: Step)
    requires rs == RootStep(Constructor, Recipes[IronRod], 4, 1)
    requires s1 == Step(Entry(IronIngot, 15, 1), Smelter, Recipes[IronIngot], 4)
    requires s2 == Step(Entry(IronOre, 30, 1), MinerMk1, Recipes[IronOre], 5)
    ensures Aggregate(RootNeeded(rs), [s1] + ([s2] + [])) == map[
      IronRod := Requirement(Constructor, 1, 15),
      IronIngot := Requirement(Smelter, 1, 15),
      IronOre := Requirement(MinerMk1, 1, 30)]
    ensures RootPower(rs) + PowerSum([s1] + ([s2] + [])) == 13
  {
    AggregateSnoc(RootNeeded(rs), [s1], s2);
    AggregateSnoc(RootNeeded(rs), [], s1);
    assert [] + [s1] == [s1] && [s1] + [s2] == [s1] + ([s2] + []);
    assert StepMachines(s1) == 1 && Demand(s1) == 15;
    assert StepMachines(s2) == 1 && Demand(s2) == 30;
  }

  /** Iron rods at 20 per minute: two constructors, whose recorded rate is the
      30 per minute they make rather than the 20 asked for; the ingot entry is
      charged at the two constructors' count (2 x 4), though one smelter runs. */
  lemma IronRodAt20(order: seq<MachineName>)
    requires IsOrder(order, MachineItems)
    ensures Ranked(Main, CatalogRank)
    ensures ExpandSpec(Main, order, CatalogRank, IronRod, Quantity(20, 1)) == Ok(Report(map[
      IronRod := Requirement(Constructor, 2, 30),
      IronIngot := Requirement(Smelter, 1, 30),
      IronOre := Requirement(MinerMk1, 1, 30)], 21))
  {
    CatalogRanked();
    var rs := RootStep(Constructor, Recipes[IronRod], 4, 2);
    var s1 := Step(Entry(IronIngot, 15, 2), Smelter, Recipes[IronIngot], 4);
    var s2 := Step(Entry(IronOre, 30, 1), MinerMk1, Recipes[IronOre], 5);
    IronRod20Root(order, rs, s1);
    IronRodSteps(order, 2, 1, s1, s2);
    IronRodChildren(2, s1, s2);
    TraceCons(Main, order, CatalogRank, s2.entry, [], s2, [], []);
    TraceCons(Main, order, CatalogRank, s1.entry, [], s1, [s2.entry] + [], [s2] + []);
    ExpandSpecOk(Main, order, CatalogRank, IronRod, Quantity(20, 1), rs, [s1] + ([s2] + []));
    IronRod20Report(rs, s1, s2);
  }

  /** The root of the iron rod query at 20: two constructors, whose one ingot
      entry needs one smelter. */
  lemma IronRod20Root(order: seq<MachineName>, rs: RootStep, s1: Step)
    requires IsOrder(order, MachineItems)
    requires rs == RootStep(Constructor, Recipes[IronRod], 4, 2)
    requires s1 == Step(Entry(IronIngot, 15, 2), Smelter, Recipes[IronIngot], 4)
    ensures ResolveRoot(Main, order, IronRod, Quantity(20, 1)) == Ok(rs)
    ensures RootQueue(rs) == [s1.entry] + [] && StepMachines(s1) == 1
  {
    assert RootMachines(Quantity(20, 1), Recipes[IronRod]) == 2 by {
      assert Recipes[IronRod].outRate == 15 && CeilDiv(20, 15) == 2;
    }
    assert StepMachines(s1) == 1 by {
      assert Recipes[IronIngot].outRate == 30 && Demand(s1) == 30 && CeilDiv(30, 30) == 1;
    }
    CatalogResolveRoot(order, IronRod, Quantity(20, 1), rs);
  }

  /** Folding the iron rod steps at 20 into the report. */
  lemma IronRod20Report(rs: RootStep, s1: Step, s2: Step)
    requires rs == RootStep(Constructor, Recipes[IronRod], 4, 2)
    requires s1 == Step(Entry(IronIngot, 15, 2), Smelter, Recipes[IronIngot], 4)
    requires s2 == Step(Entry(IronOre, 30, 1), MinerMk1, Recipes[IronOre], 5)
    ensures Aggregate(RootNeeded(rs), [s1] + ([s2] + [])) == map[
      IronRod := Requirement(Constructor, 2, 30),
      IronIngot := Requirement(Smelter, 1, 30),
      IronOre := Requirement(MinerMk1, 1, 30)]
    ensures RootPower(rs) + PowerSum([s1] + ([s2] + [])) == 21
  {
    AggregateSnoc(RootNeeded(rs), [s1], s2);
    AggregateSnoc(RootNeeded(rs), [], s1);
    assert [] + [s1] == [s1] && [s1] + [s2] == [s1] + ([s2] + []);
    assert StepMachines(s1) == 1 && Demand(s1) == 30;
    assert StepMachines(s2) == 1 && Demand(s2) == 30;
  }

  /** The iron ore recipe lists iron ore itself at rate 0: an entry for that
      input, at any multiplier, adds no machines and no rate, enqueues nothing,
      and is still charged the multiplier times the miner's power. */
  lemma IronOreSentinel(m: nat, s: Step)
    requires s == Step(Entry(IronOre, 0, m), MinerMk1, Recipes[IronOre], Machines[MinerMk1].power)
    ensures Recipes[IronOre].inputs == [Input(IronOre, 0)] && IsRawResource(IronOre)
    ensures StepMachines(s) == 0 && Demand(s) == 0 && Children(s) == [] && Charged(s) == 5 * m
  {
  }

  /** Iron ore asked for directly: one miner, whose recipe's self-input is
      queued once and then charged at the miner's count, with zero demand. */
  lemma IronOreAt60(order: seq<MachineName>)
    requires IsOrder(order, MachineItems)
    ensures Ranked(Main, CatalogRank)
    ensures ExpandSpec(Main, order, CatalogRank, IronOre, Quantity(60, 1)) == Ok(Report(map[
      IronOre := Requirement(MinerMk1, 1, 60)], 10))
  {
    CatalogRanked();
    var rs := RootStep(MinerMk1, Recipes[IronOre], 5, 1);
    var s1 := Step(Entry(IronOre, 0, 1), MinerMk1, Recipes[IronOre], 5);
    IronOreSteps(order, rs, s1);
    IronOreReport(rs, s1);
    TraceCons(Main, order, CatalogRank, s1.entry, [], s1, [], []);
    ExpandSpecOk(Main, order, CatalogRank, IronOre, Quantity(60, 1), rs, [s1] + []);
  }

  /** The lookups of the iron ore query. */
  lemma IronOreSteps(order: seq<MachineName>, rs: RootStep, s1: Step)
    requires IsOrder(order, MachineItems)
    requires rs == RootStep(MinerMk1, Recipes[IronOre], 5, 1)
    requires s1 == Step(Entry(IronOre, 0, 1), MinerMk1, Recipes[IronOre], 5)
    ensures ResolveRoot(Main, order, IronOre, Quantity(60, 1)) == Ok(rs)
    ensures RootQueue(rs) == [s1.entry] + []
    ensures Resolve(Main, order, s1.entry) == Ok(s1)
  {
    CatalogResolveRoot(order, IronOre, Quantity(60, 1), rs);
    CatalogResolve(order, s1);
  }

  /** The successors and the report of the iron ore query, with the queue and
      the trace in the `rest + Children(s)` and `[s] + t` forms that
      `TraceCons` and `ExpandSpecOk` take. */
  lemma IronOreReport(rs: RootStep, s1: Step)
    requires rs == RootStep(MinerMk1, Recipes[IronOre], 5, 1)
    requires s1 == Step(Entry(IronOre, 0, 1), MinerMk1, Recipes[IronOre], 5)
    ensures [] + Children(s1) == []
    ensures Aggregate(RootNeeded(rs), [s1] + []) == map[IronOre := Requirement(MinerMk1, 1, 60)]
    ensures RootPower(rs) + PowerSum([s1] + []) == 10
  {
    AggregateSnoc(RootNeeded(rs), [], s1);
    assert [] + [s1] == [s1] + [];
    assert StepMachines(s1) == 0 && Demand(s1) == 0;
  }

  /** Copper is unreachable: copper ore has a producer but no recipe. */
  lemma CopperIngotFails(order: seq<MachineName>, qty: Quantity)
    requires IsOrder(order, MachineItems)
    ensures Ranked(Main, CatalogRank)
    ensures ExpandSpec(Main, order, CatalogRank, CopperIngot, qty) == Err(NoRecipe(CopperOre))
  {
    CatalogRanked();
    var rs := RootStep(Smelter, Recipes[CopperIngot], 4, RootMachines(qty, Recipes[CopperIngot]));
    var e1 := Entry(CopperOre, 30, rs.machines);
    CopperSteps(order, qty, rs, e1);
    CopperOreFails(order, rs.machines, e1);
    TraceHeadFails(Main, order, CatalogRank, e1, [], NoRecipe(CopperOre));
    ExpandSpecFails(Main, order, CatalogRank, CopperIngot, qty, rs, NoRecipe(CopperOre));
  }

  /** The root of the copper ingot query and its queue. */
  lemma CopperSteps(order: seq<MachineName>, qty: Quantity, rs: RootStep, e1: Entry)
    requires IsOrder(order, MachineItems)
    requires rs == RootStep(Smelter, Recipes[CopperIngot], 4, RootMachines(qty, Recipes[CopperIngot]))
    requires e1 == Entry(CopperOre, 30, rs.machines)
    ensures ResolveRoot(Main, order, CopperIngot, qty) == Ok(rs) && RootQueue(rs) == [e1] + []
  {
    CatalogResolveRoot(order, CopperIngot, qty, rs);
  }

  /** A copper ore entry fails: there is a miner for it but no recipe. */
  lemma CopperOreFails(order: seq<MachineName>, m: nat, e1: Entry)
    requires IsOrder(order, MachineItems)
    requires e1 == Entry(CopperOre, 30, m)
    ensures Resolve(Main, order, e1) == Err(NoRecipe(CopperOre))
  {
    CatalogNoRecipe(order, e1);
  }

  /** Steel fails at its second input: iron ore resolves, coal has no recipe. */
  lemma SteelIngotFails(order: seq<MachineName>, qty: Quantity)
    requires IsOrder(order, MachineItems)
    ensures Ranked(Main, CatalogRank)
    ensures ExpandSpec(Main, order, CatalogRank, SteelIngot, qty) == Err(NoRecipe(Coal))
  {
    CatalogRanked();
    var rs := RootStep(Foundry, Recipes[SteelIngot], 16, RootMachines(qty, Recipes[SteelIngot]));
    var s1 := Step(Entry(IronOre, 45, rs.machines), MinerMk1, Recipes[IronOre], 5);
    var e2 := Entry(Coal, 45, rs.machines);
    SteelRoot(order, qty, rs, s1, e2);
    SteelOreStep(order, rs.machines, s1, e2);
    CoalFails(order, rs.machines, e2);
    TraceHeadFails(Main, order, CatalogRank, e2, [], NoRecipe(Coal));
    TraceConsFail(Main, order, CatalogRank, s1.entry, [e2], s1, [e2] + [], NoRecipe(Coal));
    ExpandSpecFails(Main, order, CatalogRank, SteelIngot, qty, rs, NoRecipe(Coal));
  }

  /** The root of the steel ingot query and its queue. */
  lemma SteelRoot(order: seq<MachineName>, qty: Quantity, rs: RootStep, s1: Step, e2: Entry)
    requires IsOrder(order, MachineItems)
    requires rs == RootStep(Foundry, Recipes[SteelIngot], 16, RootMachines(qty, Recipes[SteelIngot]))
    requires s1 == Step(Entry(IronOre, 45, rs.machines), MinerMk1, Recipes[IronOre], 5)
    requires e2 == Entry(Coal, 45, rs.machines)
    ensures ResolveRoot(Main, order, SteelIngot, qty) == Ok(rs) && RootQueue(rs) == [s1.entry] + [e2]
  {
    CatalogResolveRoot(order, SteelIngot, qty, rs);
  }

  /** The steel ingot query's ore entry resolves to a miner and adds nothing. */
  lemma SteelOreStep(order: seq<MachineName>, m: nat, s1: Step, e2: Entry)
    requires IsOrder(order, MachineItems)
    requires s1 == Step(Entry(IronOre, 45, m), MinerMk1, Recipes[IronOre], 5)
    ensures Resolve(Main, order, s1.entry) == Ok(s1) && [e2] + Children(s1) == [e2] + []
  {
    CatalogResolve(order, s1);
  }

  /** A coal entry fails: there is a miner for it but no recipe. */
  lemma CoalFails(order: seq<MachineName>, m: nat, e2: Entry)
    requires IsOrder(order, MachineItems)
    requires e2 == Entry(Coal, 45, m)
    ensures Resolve(Main, order, e2) == Err(NoRecipe(Coal))
  {
    CatalogNoRecipe(order, e2);
  }

  /** Aluminium fails at scrap, which no machine type is listed for. */
  lemma AluminiumIngotFails(order: seq<MachineName>, qty: Quantity)
    requires IsOrder(order, MachineItems)
    ensures Ranked(Main, CatalogRank)
    ensures ExpandSpec(Main, order, CatalogRank, AluminiumIngot, qty) == Err(NoProducer(AluminiumScrap))
  {
    CatalogRanked();
    var rs := RootStep(Foundry, Recipes[AluminiumIngot], 16, RootMachines(qty, Recipes[AluminiumIngot]));
    var e1 := Entry(AluminiumScrap, 90, rs.machines);
    var rest := [Entry(Sillica, 75, rs.machines)];
    AluminiumSteps(order, qty, rs, e1, rest);
    AluminiumScrapFails(order, rs.machines, e1);
    TraceHeadFails(Main, order, CatalogRank, e1, rest, NoProducer(AluminiumScrap));
    ExpandSpecFails(Main, order, CatalogRank, AluminiumIngot, qty, rs, NoProducer(AluminiumScrap));
  }

  /** The root of the aluminium ingot query and its queue. */
  lemma AluminiumSteps(order: seq<MachineName>, qty: Quantity, rs: RootStep, e1: Entry, rest: seq<Entry>)
    requires IsOrder(order, MachineItems)
    requires rs == RootStep(Foundry, Recipes[AluminiumIngot], 16, RootMachines(qty, Recipes[AluminiumIngot]))
    requires e1 == Entry(AluminiumScrap, 90, rs.machines) && rest == [Entry(Sillica, 75, rs.machines)]
    ensures ResolveRoot(Main, order, AluminiumIngot, qty) == Ok(rs) && RootQueue(rs) == [e1] + rest
  {
    CatalogResolveRoot(order, AluminiumIngot, qty, rs);
  }

  /** An aluminium scrap entry fails: no machine type is listed for it. */
  lemma AluminiumScrapFails(order: seq<MachineName>, m: nat, e1: Entry)
    requires IsOrder(order, MachineItems)
    requires e1 == Entry(AluminiumScrap, 90, m)
    ensures Resolve(Main, order, e1) == Err(NoProducer(AluminiumScrap))
  {
    CatalogNoProducer(order, e1);
  }

  // The processed entries of reinforced iron plates at 10 per minute.
  const PlateStep := Step(Entry(IronPlate, 30, 2), Constructor, Recipes[IronPlate], 4)
  const ScrewStep := Step(Entry(Screw, 60, 2), Constructor, Recipes[Screw], 4)
  const PlateIngotStep := Step(Entry(IronIngot, 30, 3), Smelter, Recipes[IronIngot], 4)
  const RodStep := Step(Entry(IronRod, 10, 3), Constructor, Recipes[IronRod], 4)
  const PlateOreStep := Step(Entry(IronOre, 30, 3), MinerMk1, Recipes[IronOre], 5)
  const RodIngotStep := Step(Entry(IronIngot, 15, 2), Smelter, Recipes[IronIngot], 4)
  const RodOreStep := Step(Entry(IronOre, 30, 1), MinerMk1, Recipes[IronOre], 5)

  /** The plate query's steps in queue order: plate, screw, the plate's ingot,
      the screw's rod, the ingot's ore, the rod's ingot, that ingot's ore. */
  function ReinforcedPlateSteps(): seq<Step> {
    [PlateStep, ScrewStep, PlateIngotStep, RodStep, PlateOreStep, RodIngotStep, RodOreStep]
  }

  /** What each plate step enqueues. */
  lemma ReinforcedPlateChildren()
    ensures Children(PlateStep) == [PlateIngotStep.entry]
    ensures Children(ScrewStep) == [RodStep.entry]
    ensures Children(PlateIngotStep) == [PlateOreStep.entry]
    ensures Children(RodStep) == [RodIngotStep.entry]
    ensures Children(PlateOreStep) == []
    ensures Children(RodIngotStep) == [RodOreStep.entry]
    ensures Children(RodOreStep) == []
  {
  }

  /** The plate queue's sequences, restated in the `rest + Children(s)` and
      `[e] + rest` forms that `TraceCons` takes, so that chaining it needs no
      sequence reasoning. */
  lemma ReinforcedPlateSequences()
    ensures [] + [RodOreStep.entry] == [RodOreStep.entry] + [] && [] + Children(RodOreStep) == []
    ensures [PlateStep.entry] + [ScrewStep.entry] == [PlateStep.entry, ScrewStep.entry]
    ensures [PlateStep] + ([ScrewStep] + ([PlateIngotStep] + ([RodStep] + ([PlateOreStep]
      + ([RodIngotStep] + ([RodOreStep] + [])))))) == ReinforcedPlateSteps()
  {
    ReinforcedPlateChildren();
  }

  /** The plate queue over any calculator that resolves its entries as the
      catalog does. */
  lemma ReinforcedPlateTraceAll(pc: Calculator, order: seq<MachineName>, rank: Item -> nat)
    requires Ranked(pc, rank)
    requires Resolve(pc, order, PlateStep.entry) == Ok(PlateStep)
    requires Resolve(pc, order, ScrewStep.entry) == Ok(ScrewStep)
    requires Resolve(pc, order, PlateIngotStep.entry) == Ok(PlateIngotStep)
    requires Resolve(pc, order, RodStep.entry) == Ok(RodStep)
    requires Resolve(pc, order, PlateOreStep.entry) == Ok(PlateOreStep)
    requires Resolve(pc, order, RodIngotStep.entry) == Ok(RodIngotStep)
    requires Resolve(pc, order, RodOreStep.entry) == Ok(RodOreStep)
    ensures Trace(pc, order, rank, [PlateStep.entry, ScrewStep.entry]) == Ok(ReinforcedPlateSteps())
  {
    ReinforcedPlateChildren();
    ReinforcedPlateSequences();
    TraceCons(pc, order, rank, RodOreStep.entry, [], RodOreStep, [], []);
    TraceCons(pc, order, rank, RodIngotStep.entry, [], RodIngotStep, [RodOreStep.entry] + [], [RodOreStep] + []);
    var t := [RodIngotStep] + ([RodOreStep] + []);
    TraceCons(pc, order, rank, PlateOreStep.entry, [RodIngotStep.entry], PlateOreStep, [RodIngotStep.entry] + [], t);
    t := [PlateOreStep] + t;
    TraceCons(pc, order, rank, RodStep.entry, [PlateOreStep.entry], RodStep, [PlateOreStep.entry] + [RodIngotStep.entry], t);
    t := [RodStep] + t;
    TraceCons(pc, order, rank, PlateIngotStep.entry, [RodStep.entry], PlateIngotStep, [RodStep.entry] + [PlateOreStep.entry], t);
    t := [PlateIngotStep] + t;
    TraceCons(pc, order, rank, ScrewStep.entry, [PlateIngotStep.entry], ScrewStep, [PlateIngotStep.entry] + [RodStep.entry], t);
    t := [ScrewStep] + t;
    TraceCons(pc, order, rank, PlateStep.entry, [ScrewStep.entry], PlateStep, [ScrewStep.entry] + [PlateIngotStep.entry], t);
  }

  /** The plate queue over the catalog, for every order. */
  lemma ReinforcedPlateTrace(order: seq<MachineName>)
    requires IsOrder(order, MachineItems)
    ensures Ranked(Main, CatalogRank)
    ensures Trace(Main, order, CatalogRank, [PlateStep.entry, ScrewStep.entry]) == Ok(ReinforcedPlateSteps())
  {
    CatalogRanked();
    ReinforcedPlateIronPlateBranch(order);
    ReinforcedPlateScrewBranch(order);
    ReinforcedPlateRodBranch(order);
    ReinforcedPlateOres(order);
    ReinforcedPlateTraceAll(Main, order, CatalogRank);
  }

  /** The plate branch resolves: the plate and its ingot. */
  lemma ReinforcedPlateIronPlateBranch(order: seq<MachineName>)
    requires IsOrder(order, MachineItems)
    ensures Resolve(Main, order, PlateStep.entry) == Ok(PlateStep)
    ensures Resolve(Main, order, PlateIngotStep.entry) == Ok(PlateIngotStep)
  {
    CatalogResolve(order, PlateStep);
    CatalogResolve(order, PlateIngotStep);
  }

  /** The screw branch resolves: the screw and its rod. */
  lemma ReinforcedPlateScrewBranch(order: seq<MachineName>)
    requires IsOrder(order, MachineItems)
    ensures Resolve(Main, order, ScrewStep.entry) == Ok(ScrewStep)
    ensures Resolve(Main, order, RodStep.entry) == Ok(RodStep)
  {
    CatalogResolve(order, ScrewStep);
    CatalogResolve(order, RodStep);
  }

  /** Below the screws' rod: its ingot resolves. */
  lemma ReinforcedPlateRodBranch(order: seq<MachineName>)
    requires IsOrder(order, MachineItems)
    ensures Resolve(Main, order, RodIngotStep.entry) == Ok(RodIngotStep)
  {
    CatalogResolve(order, RodIngotStep);
  }

  /** The ore under each of the two ingot entries resolves to the miner. */
  lemma ReinforcedPlateOres(order: seq<MachineName>)
    requires IsOrder(order, MachineItems)
    ensures Resolve(Main, order, PlateOreStep.entry) == Ok(PlateOreStep)
    ensures Resolve(Main, order, RodOreStep.entry) == Ok(RodOreStep)
  {
    CatalogResolve(order, PlateOreStep);
    CatalogResolve(order, RodOreStep);
  }

  /** What the aggregate needs to know of a step. */
  ghost predicate StepShape(s: Step, x: Item, m: MachineName, count: nat, demand: nat, charged: nat) {
    && s.entry.item == x && s.machine == m
    && StepMachines(s) == count && Demand(s) == demand && Charged(s) == charged
  }

  /** Folding the plate and screw steps into the aggregate. */
  lemma ReinforcedPlateAggregateFirst(init: map<Item, Requirement>, s1: Step, s2: Step)
    requires init == map[ReinforcedIronPlate := Requirement(Assembler, 2, 10)]
    requires StepShape(s1, IronPlate, Constructor, 3, 60, 8)
    requires StepShape(s2, Screw, Constructor, 3, 120, 8)
    ensures Aggregate(init, [s1, s2]) == map[
      ReinforcedIronPlate := Requirement(Assembler, 2, 10),
      IronPlate := Requirement(Constructor, 3, 60),
      Screw := Requirement(Constructor, 3, 120)]
    ensures PowerSum([s1, s2]) == 16
  {
    AggregateSnoc(init, [], s1);
    assert [] + [s1] == [s1];
    AggregateSnoc(init, [s1], s2);
    assert [s1] + [s2] == [s1, s2];
  }

  /** Folding the first four plate steps into the aggregate. */
  lemma ReinforcedPlateAggregateUpper(init: map<Item, Requirement>, s1: Step, s2: Step, s3: Step, s4: Step)
    requires init == map[ReinforcedIronPlate := Requirement(Assembler, 2, 10)]
    requires StepShape(s1, IronPlate, Constructor, 3, 60, 8)
    requires StepShape(s2, Screw, Constructor, 3, 120, 8)
    requires StepShape(s3, IronIngot, Smelter, 3, 90, 12)
    requires StepShape(s4, IronRod, Constructor, 2, 30, 12)
    ensures Aggregate(init, [s1, s2, s3, s4]) == map[
      ReinforcedIronPlate := Requirement(Assembler, 2, 10),
      IronPlate := Requirement(Constructor, 3, 60),
      Screw := Requirement(Constructor, 3, 120),
      IronIngot := Requirement(Smelter, 3, 90),
      IronRod := Requirement(Constructor, 2, 30)]
    ensures PowerSum([s1, s2, s3, s4]) == 40
  {
    ReinforcedPlateAggregateFirst(init, s1, s2);
    AggregateSnoc(init, [s1, s2], s3);
    assert [s1, s2] + [s3] == [s1, s2, s3];
    AggregateSnoc(init, [s1, s2, s3], s4);
    assert [s1, s2, s3] + [s4] == [s1, s2, s3, s4];
  }

  /** Folding the last three plate steps: the second visits of iron ingot and
      iron ore add their counts and rates to the first. */
  lemma ReinforcedPlateAggregate(init: map<Item, Requirement>, s1: Step, s2: Step, s3: Step, s4: Step, s5: Step, s6: Step, s7: Step)
    requires init == map[ReinforcedIronPlate := Requirement(Assembler, 2, 10)]
    requires StepShape(s1, IronPlate, Constructor, 3, 60, 8)
    requires StepShape(s2, Screw, Constructor, 3, 120, 8)
    requires StepShape(s3, IronIngot, Smelter, 3, 90, 12)
    requires StepShape(s4, IronRod, Constructor, 2, 30, 12)
    requires StepShape(s5, IronOre, MinerMk1, 2, 90, 15)
    requires StepShape(s6, IronIngot, Smelter, 1, 30, 8)
    requires StepShape(s7, IronOre, MinerMk1, 1, 30, 5)
    ensures Aggregate(init, [s1, s2, s3, s4, s5, s6, s7]) == map[
      ReinforcedIronPlate := Requirement(Assembler, 2, 10),
      IronPlate := Requirement(Constructor, 3, 60),
      Screw := Requirement(Constructor, 3, 120),
      IronIngot := Requirement(Smelter, 4, 120),
      IronRod := Requirement(Constructor, 2, 30),
      IronOre := Requirement(MinerMk1, 3, 120)]
    ensures PowerSum([s1, s2, s3, s4, s5, s6, s7]) == 68
  {
    ReinforcedPlateAggregateUpper(init, s1, s2, s3, s4);
    AggregateSnoc(init, [s1, s2, s3, s4], s5);
    assert [s1, s2, s3, s4] + [s5] == [s1, s2, s3, s4, s5];
    AggregateSnoc(init, [s1, s2, s3, s4, s5], s6);
    assert [s1, s2, s3, s4, s5] + [s6] == [s1, s2, s3, s4, s5, s6];
    AggregateSnoc(init, [s1, s2, s3, s4, s5, s6], s7);
    assert [s1, s2, s3, s4, s5, s6] + [s7] == [s1, s2, s3, s4, s5, s6, s7];
  }

  /** Reinforced iron plates at 10 per minute. The report sums rounded-up
      machine counts branch by branch, so iron ore gets 3 miners for 120 per
      minute where 2 would cover it; and each entry's power is charged at its
      consumer's count, so the total (100) differs from the machines' own draw
      (2 x 16 + 3 x 4 + 3 x 4 + 4 x 4 + 2 x 4 + 3 x 5 = 95). */
  lemma ReinforcedIronPlateAt10(order: seq<MachineName>)
    requires IsOrder(order, MachineItems)
    ensures Ranked(Main, CatalogRank)
    ensures ExpandSpec(Main, order, CatalogRank, ReinforcedIronPlate, Quantity(10, 1)) == Ok(Report(map[
      ReinforcedIronPlate := Requirement(Assembler, 2, 10),
      IronPlate := Requirement(Constructor, 3, 60),
      Screw := Requirement(Constructor, 3, 120),
      IronIngot := Requirement(Smelter, 4, 120),
      IronRod := Requirement(Constructor, 2, 30),
      IronOre := Requirement(MinerMk1, 3, 120)], 100))
  {
    CatalogRanked();
    var rs := RootStep(Assembler, Recipes[ReinforcedIronPlate], 16, 2);
    ReinforcedPlateRoot(order, rs);
    ReinforcedPlateTrace(order);
    ExpandSpecOk(Main, order, CatalogRank, ReinforcedIronPlate, Quantity(10, 1), rs, ReinforcedPlateSteps());
    ReinforcedPlateShapes();
    ReinforcedPlateAggregate(RootNeeded(rs), PlateStep, ScrewStep, PlateIngotStep, RodStep, PlateOreStep, RodIngotStep, RodOreStep);
  }

  /** The plate query reports more miners for iron ore than the ceiling of its
      total rate over the ore recipe's output: the ingot branches round up
      separately (2 + 1), where the merged rate needs 2. */
  lemma ReinforcedIronPlateOverCounts(order: seq<MachineName>)
    requires IsOrder(order, MachineItems)
    ensures Ranked(Main, CatalogRank)
    ensures var r := ExpandSpec(Main, order, CatalogRank, ReinforcedIronPlate, Quantity(10, 1));
      && r.Ok? && IronOre in r.value.needed
      && r.value.needed[IronOre].count > CeilDiv(r.value.needed[IronOre].rate, Recipes[IronOre].outRate)
  {
    ReinforcedIronPlateAt10(order);
    OreCeiling();
  }

  /** 120 iron ore per minute needs two miners. */
  lemma OreCeiling()
    ensures CeilDiv(120, Recipes[IronOre].outRate) == 2
  {
    assert Recipes[IronOre].outRate == 60;
  }

  /** The root of the plate query, its queue and its aggregate entry. */
  lemma ReinforcedPlateRoot(order: seq<MachineName>, rs: RootStep)
    requires IsOrder(order, MachineItems)
    requires rs == RootStep(Assembler, Recipes[ReinforcedIronPlate], 16, 2)
    ensures ResolveRoot(Main, order, ReinforcedIronPlate, Quantity(10, 1)) == Ok(rs)
    ensures RootQueue(rs) == [PlateStep.entry, ScrewStep.entry]
    ensures RootNeeded(rs) == map[ReinforcedIronPlate := Requirement(Assembler, 2, 10)]
  {
    CatalogResolveRoot(order, ReinforcedIronPlate, Quantity(10, 1), rs);
  }

  /** The counts, demands and charges of the plate steps. */
  lemma ReinforcedPlateShapes()
    ensures StepShape(PlateStep, IronPlate, Constructor, 3, 60, 8)
    ensures StepShape(ScrewStep, Screw, Constructor, 3, 120, 8)
    ensures StepShape(PlateIngotStep, IronIngot, Smelter, 3, 90, 12)
    ensures StepShape(RodStep, IronRod, Constructor, 2, 30, 12)
    ensures StepShape(PlateOreStep, IronOre, MinerMk1, 2, 90, 15)
    ensures StepShape(RodIngotStep, IronIngot, Smelter, 1, 30, 8)
    ensures StepShape(RodOreStep, IronOre, MinerMk1, 1, 30, 5)
  {
  }
}
