/** The data shapes of the production calculator (src/prodcalc/mod.rs): the
    closed sets of items and machine types, their parsers, the raw-resource
    tag, recipes, machines, the calculator's three lookup tables, and the
    producer lookup that the expansion engine performs on them. */
module ProdCalc {

  datatype Option<T> = None | Some(value: T)

  /** A production good (`ProdItem`). */
  datatype Item =
    | IronIngot | CopperIngot | IronRod | IronOre | CopperOre | Screw | IronPlate
    | ReinforcedIronPlate | AluminiumIngot | Wire | Cable | CopperSheet | SteelIngot
    | Coal | LimeStone | QuartzOre | AluminiumScrap | Sillica

  /** The name of an item variant as a user types it. */
  function ItemName(i: Item): string {
    match i
    case IronIngot => "IronIngot"
    case CopperIngot => "CopperIngot"
    case IronRod => "IronRod"
    case IronOre => "IronOre"
    case CopperOre => "CopperOre"
    case Screw => "Screw"
    case IronPlate => "IronPlate"
    case ReinforcedIronPlate => "ReinforcedIronPlate"
    case AluminiumIngot => "AluminiumIngot"
    case Wire => "Wire"
    case Cable => "Cable"
    case CopperSheet => "CopperSheet"
    case SteelIngot => "SteelIngot"
    case Coal => "Coal"
    case LimeStone => "LimeStone"
    case QuartzOre => "QuartzOre"
    case AluminiumScrap => "AluminiumScrap"
    case Sillica => "Sillica"
  }

  /** `ProdItem::from_string`: exact, case-sensitive match on a variant's name. */
  function ItemFromString(s: string): (r: Option<Item>)
    ensures r.Some? ==> ItemName(r.value) == s
    ensures r.None? ==> forall i: Item :: ItemName(i) != s
  {
    match s
    case "IronIngot" => Some(IronIngot)
    case "CopperIngot" => Some(CopperIngot)
    case "IronRod" => Some(IronRod)
    case "IronOre" => Some(IronOre)
    case "CopperOre" => Some(CopperOre)
    case "Screw" => Some(Screw)
    case "IronPlate" => Some(IronPlate)
    case "ReinforcedIronPlate" => Some(ReinforcedIronPlate)
    case "AluminiumIngot" => Some(AluminiumIngot)
    case "Wire" => Some(Wire)
    case "Cable" => Some(Cable)
    case "CopperSheet" => Some(CopperSheet)
    case "SteelIngot" => Some(SteelIngot)
    case "Coal" => Some(Coal)
    case "LimeStone" => Some(LimeStone)
    case "QuartzOre" => Some(QuartzOre)
    case "AluminiumScrap" => Some(AluminiumScrap)
    case "Sillica" => Some(Sillica)
    case _ => None
  }

  /** The parser accepts exactly the variant names, each for its own variant. */
  lemma ItemFromStringExact(s: string, i: Item)
    ensures ItemFromString(s) == Some(i) <==> s == ItemName(i)
  {
    match i
    case IronIngot =>
    case CopperIngot =>
    case IronRod =>
    case IronOre =>
    case CopperOre =>
    case Screw =>
    case IronPlate =>
    case ReinforcedIronPlate =>
    case AluminiumIngot =>
    case Wire =>
    case Cable =>
    case CopperSheet =>
    case SteelIngot =>
    case Coal =>
    case LimeStone =>
    case QuartzOre =>
    case AluminiumScrap =>
    case Sillica =>
  }

  /** Two strings that parse to the same item are the same string. */
  lemma ItemFromStringInjective(s1: string, s2: string)
    requires ItemFromString(s1).Some? && ItemFromString(s1) == ItemFromString(s2)
    ensures s1 == s2
  {
  }

  /** `ProdItem::is_raw_resource`: the extracted resources. */
  predicate IsRawResource(i: Item) {
    match i
    case IronOre | CopperOre | Coal | LimeStone | QuartzOre => true
    case _ => false
  }

  /** Exactly five items are raw. */
  lemma RawResourcesExactly(i: Item)
    ensures IsRawResource(i) <==> i in [IronOre, CopperOre, Coal, LimeStone, QuartzOre]
  {
  }

  /** A machine type (`MachineName`). */
  datatype MachineName = Smelter | Constructor | MinerMk1 | Assembler | Foundry

  /** The name of a machine variant as written in the source. */
  function MachineText(m: MachineName): string {
    match m
    case Smelter => "Smelter"
    case Constructor => "Constructor"
    case MinerMk1 => "MinerMk1"
    case Assembler => "Assembler"
    case Foundry => "Foundry"
  }

  /** `MachineName::from_string`: exact match on a variant's name. */
  function MachineFromString(s: string): (r: Option<MachineName>)
    ensures r.Some? ==> MachineText(r.value) == s
    ensures r.None? ==> forall m: MachineName :: MachineText(m) != s
  {
    match s
    case "Smelter" => Some(Smelter)
    case "Constructor" => Some(Constructor)
    case "Assembler" => Some(Assembler)
    case "MinerMk1" => Some(MinerMk1)
    case "Foundry" => Some(Foundry)
    case _ => None
  }

  /** The parser accepts exactly the variant names, each for its own variant. */
  lemma MachineFromStringExact(s: string, m: MachineName)
    ensures MachineFromString(s) == Some(m) <==> s == MachineText(m)
  {
    match m
    case Smelter =>
    case Constructor =>
    case MinerMk1 =>
    case Assembler =>
    case Foundry =>
  }

  /** Two strings that parse to the same machine type are the same string. */
  lemma MachineFromStringInjective(s1: string, s2: string)
    requires MachineFromString(s1).Some? && MachineFromString(s1) == MachineFromString(s2)
    ensures s1 == s2
  {
  }

  /** A per-minute rate that is never zero: recipe output rates are divisors. */
  type PosRate = n: nat | n > 0 witness 1

  /** One `(ProdItem, f64)` of a recipe's `input_items`: an input and its per-minute rate. */
  datatype Input = Input(item: Item, rate: nat)

  /** `Recipe`: `output_item` split into its item and rate, and the inputs in order. */
  datatype Recipe = Recipe(outItem: Item, outRate: PosRate, inputs: seq<Input>)

  /** `Machine`: a machine type and its power draw per running unit. */
  datatype Machine = Machine(name: MachineName, power: nat)

  /** `ProductionCalculator`: the three read-only tables. */
  datatype Calculator = Calculator(
    recipes: map<Item, Recipe>,
    machineItems: map<MachineName, seq<Item>>,
    machines: map<MachineName, Machine>)

  /** `order` is an iteration order of the table `mi`: each key exactly once. */
  ghost predicate IsOrder(order: seq<MachineName>, mi: map<MachineName, seq<Item>>) {
    && (forall j, k :: 0 <= j < k < |order| ==> order[j] != order[k])
    && (forall m :: m in mi <==> m in order)
  }

  /** No item is listed by two different machine types. */
  ghost predicate UniqueProducers(mi: map<MachineName, seq<Item>>) {
    forall m1, m2, x :: m1 in mi && m2 in mi && x in mi[m1] && x in mi[m2] ==> m1 == m2
  }

  /** The `find_map` over `machinexitems`: the first machine type, in the table's
      iteration order `order`, whose item list contains `x`. */
  function FindProducer(mi: map<MachineName, seq<Item>>, order: seq<MachineName>, x: Item)
    : (r: Option<MachineName>)
    ensures r.Some? ==> r.value in order && r.value in mi && x in mi[r.value]
    ensures r.None? <==> forall k :: 0 <= k < |order| && order[k] in mi ==> x !in mi[order[k]]
  {
    if order == [] then None
    else if order[0] in mi && x in mi[order[0]] then Some(order[0])
    else
      var r := FindProducer(mi, order[1..], x);
      assert forall k :: 1 <= k < |order| ==> order[k] == order[1..][k - 1];
      r
  }

  /** With unique producers, the lookup yields the machine that lists the item,
      whatever order the table is iterated in. */
  lemma FindProducerUnique(mi: map<MachineName, seq<Item>>, order: seq<MachineName>, x: Item, m: MachineName)
    requires UniqueProducers(mi) && IsOrder(order, mi)
    ensures FindProducer(mi, order, x) == Some(m) <==> m in mi && x in mi[m]
  {
    if m in mi && x in mi[m] {
      assert m in order;
      var k :| 0 <= k < |order| && order[k] == m;
      assert FindProducer(mi, order, x).Some?;
    }
  }

  /** The producer lookup does not depend on the table's iteration order. */
  lemma FindProducerOrderIndependent(mi: map<MachineName, seq<Item>>, o1: seq<MachineName>, o2: seq<MachineName>, x: Item)
    requires UniqueProducers(mi) && IsOrder(o1, mi) && IsOrder(o2, mi)
    ensures FindProducer(mi, o1, x) == FindProducer(mi, o2, x)
  {
    match FindProducer(mi, o1, x)
    case Some(m) =>
      FindProducerUnique(mi, o2, x, m);
    case None =>
      if FindProducer(mi, o2, x).Some? {
        var m := FindProducer(mi, o2, x).value;
        FindProducerUnique(mi, o1, x, m);
      }
  }
}
