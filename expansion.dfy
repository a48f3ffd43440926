/** The demand-expansion engine of `ProductionCalculator::run`
    (src/prodcalc/mod.rs:163-254): from a root item and a requested per-minute
    rate it computes, per item of the dependency chain, the machine type, the
    machine count and the demanded rate, and the total power draw.

    The specification is a first-in-first-out trace of the work queue
    (`Trace`) folded into the per-item aggregate (`Aggregate`) and the power
    total (`PowerSum`); the method `Expand` is the source's nested loop and is
    proved to compute exactly that. */
module Expansion {
  import opened ProdCalc

  /** A requested per-minute rate, as the rational number `num / den`. */
  datatype Quantity = Quantity(num: nat, den: PosRate)

  /** Why a query aborts: the lookup that panics in the source. */
  datatype Error =
    | NoRecipe(item: Item)              // `self.recipes.get(..).unwrap()`
    | NoProducer(item: Item)            // `find_map(..).unwrap()` over `machinexitems`
    | NoPowerEntry(machine: MachineName) // `self.machines.get(..).unwrap()`

  datatype Result<T> = Ok(value: T) | Err(error: Error)

  /** One value of `needed_resources`: machine type, machine count, demanded rate. */
  datatype Requirement = Requirement(machine: MachineName, count: nat, rate: nat)

  /** What a query prints: the aggregate and the power total. */
  datatype Report = Report(needed: map<Item, Requirement>, power: nat)

  /** A work-queue entry `(item, amount_per_min, needed_machines)`: the item, its
      per-cycle rate in the consuming recipe, and the consumer's machine count. */
  datatype Entry = Entry(item: Item, perCycle: nat, multiplier: nat)

  /** A processed queue entry together with what its three lookups found. */
  datatype Step = Step(entry: Entry, machine: MachineName, recipe: Recipe, power: nat)

  /** The root's lookups and its machine count. */
  datatype RootStep = RootStep(machine: MachineName, recipe: Recipe, power: nat, machines: nat)

  /** `(n / d).ceil()` on exact rationals (lines 180 and 223-225). */
  function CeilDiv(n: nat, d: PosRate): nat {
    (n + d - 1) / d
  }

  /** `CeilDiv(n, d)` is the fewest machines of output `d` that cover `n`. */
  lemma CeilDivIsCeiling(n: nat, d: PosRate)
    ensures CeilDiv(n, d) * d >= n
    ensures CeilDiv(n, d) > 0 ==> (CeilDiv(n, d) - 1) * d < n
  {
    var r := CeilDiv(n, d);
    assert (n + d - 1) == r * d + (n + d - 1) % d;
  }

  /** The root's machine count (line 180): `qty / outRate` rounded up. */
  function RootMachines(qty: Quantity, recipe: Recipe): nat {
    CeilDiv(qty.num, qty.den * recipe.outRate)
  }

  /** The root's machine count is the least `r` with `r * outRate >= qty`. */
  lemma RootMachinesIsCeiling(qty: Quantity, recipe: Recipe)
    ensures RootMachines(qty, recipe) * recipe.outRate * qty.den >= qty.num
    ensures RootMachines(qty, recipe) > 0 ==> (RootMachines(qty, recipe) - 1) * recipe.outRate * qty.den < qty.num
  {
    var d: PosRate := qty.den * recipe.outRate;
    var r := CeilDiv(qty.num, d);
    CeilDivIsCeiling(qty.num, d);
    assert r * recipe.outRate * qty.den == r * d;
    assert r > 0 ==> (r - 1) * recipe.outRate * qty.den == (r - 1) * d;
  }

  /** The `.map(|(item, per_min)| (item, per_min, m)).collect()` of a recipe's inputs. */
  function InputEntries(ins: seq<Input>, m: nat): (r: seq<Entry>)
    ensures |r| == |ins|
    ensures forall k :: 0 <= k < |ins| ==> r[k] == Entry(ins[k].item, ins[k].rate, m)
  {
    seq(|ins|, k requires 0 <= k < |ins| => Entry(ins[k].item, ins[k].rate, m))
  }

  /** The rate an entry demands of its item: multiplier times per-cycle rate. */
  function EntryDemand(e: Entry): nat {
    e.multiplier * e.perCycle
  }

  /** The rate demanded of a processed entry's item. */
  function Demand(s: Step): nat {
    EntryDemand(s.entry)
  }

  /** `item_machines` (lines 223-225). */
  function StepMachines(s: Step): nat {
    CeilDiv(Demand(s), s.recipe.outRate)
  }

  /** The power charged for a processed entry (lines 226-227): the parent's
      multiplier times the producing machine's power. */
  function Charged(s: Step): nat {
    s.entry.multiplier * s.power
  }

  /** What a processed entry appends to the queue (lines 241-250). */
  function Children(s: Step): seq<Entry> {
    if IsRawResource(s.entry.item) then [] else InputEntries(s.recipe.inputs, StepMachines(s))
  }

  /** The lookups for a queue entry, in the source's order: producer (210-221),
      recipe (222), power entry (227). */
  function Resolve(pc: Calculator, order: seq<MachineName>, e: Entry): (r: Result<Step>)
    ensures r.Ok? <==>
      && FindProducer(pc.machineItems, order, e.item).Some?
      && e.item in pc.recipes
      && FindProducer(pc.machineItems, order, e.item).value in pc.machines
    ensures r.Ok? ==>
      && r.value.entry == e
      && FindProducer(pc.machineItems, order, e.item) == Some(r.value.machine)
      && r.value.recipe == pc.recipes[e.item]
      && r.value.power == pc.machines[r.value.machine].power
    ensures r == Err(NoProducer(e.item)) <==> FindProducer(pc.machineItems, order, e.item).None?
    ensures r.Err? && r.error.NoRecipe? <==>
      FindProducer(pc.machineItems, order, e.item).Some? && e.item !in pc.recipes
  {
    match FindProducer(pc.machineItems, order, e.item)
    case None => Err(NoProducer(e.item))
    case Some(m) =>
      if e.item !in pc.recipes then Err(NoRecipe(e.item))
      else if m !in pc.machines then Err(NoPowerEntry(m))
      else Ok(Step(e, m, pc.recipes[e.item], pc.machines[m].power))
  }

  /** The root's lookups, in the source's order: recipe (165), producer
      (167-178), power entry (182). */
  function ResolveRoot(pc: Calculator, order: seq<MachineName>, root: Item, qty: Quantity)
    : (r: Result<RootStep>)
    ensures r.Ok? <==>
      && root in pc.recipes
      && FindProducer(pc.machineItems, order, root).Some?
      && FindProducer(pc.machineItems, order, root).value in pc.machines
    ensures r == Err(NoRecipe(root)) <==> root !in pc.recipes
    ensures r.Ok? ==>
      && r.value.recipe == pc.recipes[root]
      && FindProducer(pc.machineItems, order, root) == Some(r.value.machine)
      && r.value.power == pc.machines[r.value.machine].power
      && r.value.machines == RootMachines(qty, r.value.recipe)
  {
    if root !in pc.recipes then Err(NoRecipe(root))
    else match FindProducer(pc.machineItems, order, root)
      case None => Err(NoProducer(root))
      case Some(m) =>
        if m !in pc.machines then Err(NoPowerEntry(m))
        else
          var recipe := pc.recipes[root];
          Ok(RootStep(m, recipe, pc.machines[m].power, RootMachines(qty, recipe)))
  }

  /** The aggregate right after the root's `insert` (lines 184-191): keyed by the
      root recipe's output item, with the rounded-up actual rate. */
  function RootNeeded(rs: RootStep): map<Item, Requirement> {
    map[rs.recipe.outItem := Requirement(rs.machine, rs.machines, rs.machines * rs.recipe.outRate)]
  }

  /** The root's power charge (lines 181-182). */
  function RootPower(rs: RootStep): nat {
    rs.machines * rs.power
  }

  /** The initial queue (lines 198-202): all of the root's inputs, raw root or not. */
  function RootQueue(rs: RootStep): seq<Entry> {
    InputEntries(rs.recipe.inputs, rs.machines)
  }

  /** The insert-or-add merge of one processed entry (lines 228-238). */
  function Merge(needed: map<Item, Requirement>, s: Step): map<Item, Requirement> {
    var x := s.entry.item;
    if x in needed then
      needed[x := Requirement(needed[x].machine, needed[x].count + StepMachines(s), needed[x].rate + Demand(s))]
    else
      needed[x := Requirement(s.machine, StepMachines(s), Demand(s))]
  }

  /** The aggregate after merging the processed entries `t` in order into `init`. */
  function Aggregate(init: map<Item, Requirement>, t: seq<Step>): map<Item, Requirement> {
    if t == [] then init else Merge(Aggregate(init, t[..|t| - 1]), t[|t| - 1])
  }

  /** The power charged for the processed entries `t`. */
  function PowerSum(t: seq<Step>): nat {
    if t == [] then 0 else PowerSum(t[..|t| - 1]) + Charged(t[|t| - 1])
  }

  /** Machines and rate contributed to item `x` by the processed entries `t`. */
  function MachinesFor(t: seq<Step>, x: Item): nat {
    if t == [] then 0
    else MachinesFor(t[..|t| - 1], x) + (if t[|t| - 1].entry.item == x then StepMachines(t[|t| - 1]) else 0)
  }

  function DemandFor(t: seq<Step>, x: Item): nat {
    if t == [] then 0
    else DemandFor(t[..|t| - 1], x) + (if t[|t| - 1].entry.item == x then Demand(t[|t| - 1]) else 0)
  }

  /** Acyclicity of the recipe graph over non-raw items, witnessed by a rank:
      every input of a non-raw item's recipe has a smaller rank. */
  ghost predicate Ranked(pc: Calculator, rank: Item -> nat) {
    forall i, k :: i in pc.recipes && !IsRawResource(i) && 0 <= k < |pc.recipes[i].inputs| ==>
      rank(pc.recipes[i].inputs[k].item) < rank(i)
  }

  /** The number of queue entries an entry for `i` leads to, itself included. */
  ghost function Size(pc: Calculator, rank: Item -> nat, i: Item): (r: nat)
    requires Ranked(pc, rank)
    ensures r >= 1
    decreases rank(i), 1, 0
  {
    if i !in pc.recipes || IsRawResource(i) then 1
    else 1 + InputsSize(pc, rank, pc.recipes[i].inputs, rank(i))
  }

  ghost function InputsSize(pc: Calculator, rank: Item -> nat, ins: seq<Input>, bound: nat): nat
    requires Ranked(pc, rank)
    requires forall k :: 0 <= k < |ins| ==> rank(ins[k].item) < bound
    decreases bound, 0, |ins|
  {
    if ins == [] then 0 else Size(pc, rank, ins[0].item) + InputsSize(pc, rank, ins[1..], bound)
  }

  ghost function SizeSum(pc: Calculator, rank: Item -> nat, q: seq<Entry>): nat
    requires Ranked(pc, rank)
  {
    if q == [] then 0 else Size(pc, rank, q[0].item) + SizeSum(pc, rank, q[1..])
  }

  lemma {:induction false} SizeSumAppend(pc: Calculator, rank: Item -> nat, a: seq<Entry>, b: seq<Entry>)
    requires Ranked(pc, rank)
    ensures SizeSum(pc, rank, a + b) == SizeSum(pc, rank, a) + SizeSum(pc, rank, b)
  {
    if a == [] {
      assert a + b == b;
    } else {
      assert (a + b)[0] == a[0] && (a + b)[1..] == a[1..] + b;
      SizeSumAppend(pc, rank, a[1..], b);
    }
  }

  lemma {:induction false} SizeSumInputs(pc: Calculator, rank: Item -> nat, ins: seq<Input>, m: nat, bound: nat)
    requires Ranked(pc, rank)
    requires forall k :: 0 <= k < |ins| ==> rank(ins[k].item) < bound
    ensures SizeSum(pc, rank, InputEntries(ins, m)) == InputsSize(pc, rank, ins, bound)
  {
    if ins != [] {
      assert InputEntries(ins, m)[1..] == InputEntries(ins[1..], m);
      SizeSumInputs(pc, rank, ins[1..], m, bound);
    }
  }

  /** Processing one entry lowers the queue's size by exactly one. */
  lemma StepShrinks(pc: Calculator, order: seq<MachineName>, rank: Item -> nat, queue: seq<Entry>, s: Step)
    requires Ranked(pc, rank)
    requires queue != [] && Resolve(pc, order, queue[0]) == Ok(s)
    ensures SizeSum(pc, rank, queue[1..] + Children(s)) + 1 == SizeSum(pc, rank, queue)
  {
    SizeSumAppend(pc, rank, queue[1..], Children(s));
    var i := s.entry.item;
    if !IsRawResource(i) {
      SizeSumInputs(pc, rank, s.recipe.inputs, StepMachines(s), rank(i));
    }
  }

  function Prepend(p: seq<Step>, r: Result<seq<Step>>): Result<seq<Step>> {
    match r
    case Ok(t) => Ok(p + t)
    case Err(e) => Err(e)
  }

  lemma PrependNil(r: Result<seq<Step>>)
    ensures Prepend([], r) == r
  {
    if r.Ok? {
      assert [] + r.value == r.value;
    }
  }

  lemma PrependPrepend(p: seq<Step>, q: seq<Step>, r: Result<seq<Step>>)
    ensures Prepend(p, Prepend(q, r)) == Prepend(p + q, r)
  {
    if r.Ok? {
      assert p + (q + r.value) == (p + q) + r.value;
    }
  }

  /** The entries processed when the queue starts as `queue` and is worked
      first-in-first-out until it is empty, or the first failing lookup. */
  ghost function Trace(pc: Calculator, order: seq<MachineName>, rank: Item -> nat, queue: seq<Entry>)
    : Result<seq<Step>>
    requires Ranked(pc, rank)
    decreases SizeSum(pc, rank, queue)
  {
    if queue == [] then Ok([])
    else match Resolve(pc, order, queue[0])
      case Err(e) => Err(e)
      case Ok(s) =>
        StepShrinks(pc, order, rank, queue, s);
        Prepend([s], Trace(pc, order, rank, queue[1..] + Children(s)))
  }

  /** Unfolding `Trace` at a queue whose head resolves. */
  lemma TraceStep(pc: Calculator, order: seq<MachineName>, rank: Item -> nat, queue: seq<Entry>, s: Step)
    requires Ranked(pc, rank)
    requires queue != [] && Resolve(pc, order, queue[0]) == Ok(s)
    ensures Trace(pc, order, rank, queue) == Prepend([s], Trace(pc, order, rank, queue[1..] + Children(s)))
    ensures SizeSum(pc, rank, queue[1..] + Children(s)) + 1 == SizeSum(pc, rank, queue)
  {
    StepShrinks(pc, order, rank, queue, s);
  }

  /** Building a trace from its head step and the trace of what follows. */
  lemma TraceCons(pc: Calculator, order: seq<MachineName>, rank: Item -> nat, e: Entry, rest: seq<Entry>, s: Step,
                  next: seq<Entry>, t: seq<Step>)
    requires Ranked(pc, rank)
    requires Resolve(pc, order, e) == Ok(s)
    requires next == rest + Children(s)
    requires Trace(pc, order, rank, next) == Ok(t)
    ensures Trace(pc, order, rank, [e] + rest) == Ok([s] + t)
  {
    assert ([e] + rest)[0] == e && ([e] + rest)[1..] == rest;
    TraceStep(pc, order, rank, [e] + rest, s);
  }

  /** A queue whose head fails to resolve fails with the head's error. */
  lemma TraceHeadFails(pc: Calculator, order: seq<MachineName>, rank: Item -> nat, e: Entry, rest: seq<Entry>,
                       err: Error)
    requires Ranked(pc, rank)
    requires Resolve(pc, order, e) == Err(err)
    ensures Trace(pc, order, rank, [e] + rest) == Err(err)
  {
    assert ([e] + rest)[0] == e;
  }

  /** A queue whose head resolves fails as what follows it fails. */
  lemma TraceConsFail(pc: Calculator, order: seq<MachineName>, rank: Item -> nat, e: Entry, rest: seq<Entry>, s: Step,
                      next: seq<Entry>, err: Error)
    requires Ranked(pc, rank)
    requires Resolve(pc, order, e) == Ok(s)
    requires next == rest + Children(s)
    requires Trace(pc, order, rank, next) == Err(err)
    ensures Trace(pc, order, rank, [e] + rest) == Err(err)
  {
    assert ([e] + rest)[0] == e && ([e] + rest)[1..] == rest;
    TraceStep(pc, order, rank, [e] + rest, s);
  }

  /** A successful trace of a non-empty queue starts with its head, resolved. */
  lemma TraceOkStep(pc: Calculator, order: seq<MachineName>, rank: Item -> nat, queue: seq<Entry>, t: seq<Step>)
    requires Ranked(pc, rank)
    requires queue != [] && Trace(pc, order, rank, queue) == Ok(t)
    ensures Resolve(pc, order, queue[0]).Ok?
    ensures t != [] && t[0] == Resolve(pc, order, queue[0]).value
    ensures Trace(pc, order, rank, queue[1..] + Children(t[0])) == Ok(t[1..])
  {
    match Resolve(pc, order, queue[0])
    case Ok(s) =>
      TraceStep(pc, order, rank, queue, s);
      var rest := Trace(pc, order, rank, queue[1..] + Children(s)).value;
      assert t == [s] + rest;
      assert t[1..] == rest;
  }

  /** Unfolding `Trace` at a queue whose head fails to resolve. */
  lemma TraceFail(pc: Calculator, order: seq<MachineName>, rank: Item -> nat, queue: seq<Entry>)
    requires Ranked(pc, rank)
    requires queue != [] && Resolve(pc, order, queue[0]).Err?
    ensures Trace(pc, order, rank, queue) == Err(Resolve(pc, order, queue[0]).error)
  {
  }

  lemma AggregateSnoc(init: map<Item, Requirement>, t: seq<Step>, s: Step)
    ensures Aggregate(init, t + [s]) == Merge(Aggregate(init, t), s)
    ensures PowerSum(t + [s]) == PowerSum(t) + Charged(s)
  {
    assert (t + [s])[..|t|] == t;
  }

  /** Removing the front and appending keeps the rest of the snapshot at the front. */
  lemma QueueShift(snapshot: seq<Entry>, k: nat, queue: seq<Entry>, children: seq<Entry>)
    requires k < |snapshot| && |snapshot| - k <= |queue| && queue[..|snapshot| - k] == snapshot[k..]
    ensures |snapshot| - (k + 1) <= |queue[1..] + children|
    ensures (queue[1..] + children)[..|snapshot| - (k + 1)] == snapshot[k + 1..]
  {
    assert forall j :: 0 <= j < |snapshot| - (k + 1) ==> (queue[1..] + children)[j] == queue[j + 1] == snapshot[k + 1 + j];
  }

  /** The processed entries of a whole query. */
  ghost function ExpandTrace(pc: Calculator, order: seq<MachineName>, rank: Item -> nat, root: Item, qty: Quantity)
    : Result<seq<Step>>
    requires Ranked(pc, rank)
  {
    match ResolveRoot(pc, order, root, qty)
    case Err(e) => Err(e)
    case Ok(rs) => Trace(pc, order, rank, RootQueue(rs))
  }

  /** What draining `queue` reports, starting from aggregate `needed` and power `power`. */
  ghost function Complete(pc: Calculator, order: seq<MachineName>, rank: Item -> nat,
                          needed: map<Item, Requirement>, power: nat, queue: seq<Entry>): Result<Report>
    requires Ranked(pc, rank)
  {
    match Trace(pc, order, rank, queue)
    case Err(e) => Err(e)
    case Ok(t) => Ok(Report(Aggregate(needed, t), power + PowerSum(t)))
  }

  /** What one query reports. */
  ghost function ExpandSpec(pc: Calculator, order: seq<MachineName>, rank: Item -> nat, root: Item, qty: Quantity)
    : Result<Report>
    requires Ranked(pc, rank)
  {
    match ResolveRoot(pc, order, root, qty)
    case Err(e) => Err(e)
    case Ok(rs) => Complete(pc, order, rank, RootNeeded(rs), RootPower(rs), RootQueue(rs))
  }

  /** Unfolding `ExpandSpec` at a query whose root resolves and whose trace succeeds. */
  lemma ExpandSpecOk(pc: Calculator, order: seq<MachineName>, rank: Item -> nat, root: Item, qty: Quantity,
                     rs: RootStep, t: seq<Step>)
    requires Ranked(pc, rank)
    requires ResolveRoot(pc, order, root, qty) == Ok(rs)
    requires Trace(pc, order, rank, RootQueue(rs)) == Ok(t)
    ensures ExpandSpec(pc, order, rank, root, qty) == Ok(Report(Aggregate(RootNeeded(rs), t), RootPower(rs) + PowerSum(t)))
  {
    CompleteOk(pc, order, rank, RootNeeded(rs), RootPower(rs), RootQueue(rs), t);
  }

  /** Unfolding `Complete` at a queue whose trace succeeds. */
  lemma CompleteOk(pc: Calculator, order: seq<MachineName>, rank: Item -> nat,
                   needed: map<Item, Requirement>, power: nat, queue: seq<Entry>, t: seq<Step>)
    requires Ranked(pc, rank)
    requires Trace(pc, order, rank, queue) == Ok(t)
    ensures Complete(pc, order, rank, needed, power, queue) == Ok(Report(Aggregate(needed, t), power + PowerSum(t)))
  {
  }

  /** Unfolding `ExpandSpec` at a query whose root resolves and whose trace fails. */
  lemma ExpandSpecFails(pc: Calculator, order: seq<MachineName>, rank: Item -> nat, root: Item, qty: Quantity,
                        rs: RootStep, err: Error)
    requires Ranked(pc, rank)
    requires ResolveRoot(pc, order, root, qty) == Ok(rs)
    requires Trace(pc, order, rank, RootQueue(rs)) == Err(err)
    ensures ExpandSpec(pc, order, rank, root, qty) == Err(err)
  {
    var c := Complete(pc, order, rank, RootNeeded(rs), RootPower(rs), RootQueue(rs));
    assert c == Err(err);
  }

  /** The expansion of `run` (lines 163-254), with the tables as inputs.
      `order` is the iteration order of `machinexitems`; `rank` witnesses that
      the recipe graph is acyclic. */
  method Expand(pc: Calculator, order: seq<MachineName>, ghost rank: Item -> nat, root: Item, qty: Quantity)
    returns (r: Result<Report>)
    requires Ranked(pc, rank)
    ensures r == ExpandSpec(pc, order, rank, root, qty)
  {
    var needed: map<Item, Requirement> := map[];
    var power: nat := 0;
    if root !in pc.recipes {
      return Err(NoRecipe(root));
    }
    var rootRecipe := pc.recipes[root];
    var rootProducer := FindProducer(pc.machineItems, order, root);
    if rootProducer.None? {
      return Err(NoProducer(root));
    }
    var rootMachine := rootProducer.value;
    var neededMachines := CeilDiv(qty.num, qty.den * rootRecipe.outRate);
    if rootMachine !in pc.machines {
      return Err(NoPowerEntry(rootMachine));
    }
    power := power + neededMachines * pc.machines[rootMachine].power;
    needed := needed[rootRecipe.outItem := Requirement(rootMachine, neededMachines, neededMachines * rootRecipe.outRate)];
    var queue := InputEntries(rootRecipe.inputs, neededMachines);
    ghost var rs := RootStep(rootMachine, rootRecipe, pc.machines[rootMachine].power, neededMachines);
    assert ResolveRoot(pc, order, root, qty) == Ok(rs);
    assert needed == RootNeeded(rs) && power == RootPower(rs) && queue == RootQueue(rs);
    r := Drain(pc, order, rank, needed, power, queue);
  }

  /** The body of the inner loop of `run` for one popped entry (lines 210-250),
      without the queue operations: the lookups, the power charge, the
      insert-or-add merge, and the inputs to enqueue (none for a raw item). */
  method ProcessEntry(pc: Calculator, order: seq<MachineName>, entry: Entry,
                      needed: map<Item, Requirement>, power: nat)
    returns (r: Result<Step>, needed': map<Item, Requirement>, power': nat, children: seq<Entry>)
    ensures r == Resolve(pc, order, entry)
    ensures r.Ok? ==>
      && needed' == Merge(needed, r.value)
      && power' == power + Charged(r.value)
      && children == Children(r.value)
  {
    needed', power', children := needed, power, [];
    var producer := FindProducer(pc.machineItems, order, entry.item);
    if producer.None? {
      return Err(NoProducer(entry.item)), needed', power', children;
    }
    var machine := producer.value;
    if entry.item !in pc.recipes {
      return Err(NoRecipe(entry.item)), needed', power', children;
    }
    var itemRecipe := pc.recipes[entry.item];
    var demand := EntryDemand(entry);
    var itemMachines := CeilDiv(demand, itemRecipe.outRate);
    if machine !in pc.machines {
      return Err(NoPowerEntry(machine)), needed', power', children;
    }
    power' := power + entry.multiplier * pc.machines[machine].power;
    if entry.item in needed {
      var was := needed[entry.item];
      needed' := needed[entry.item := Requirement(was.machine, was.count + itemMachines, was.rate + demand)];
    } else {
      needed' := needed[entry.item := Requirement(machine, itemMachines, demand)];
    }
    r := Ok(Step(entry, machine, itemRecipe, pc.machines[machine].power));
    if IsRawResource(entry.item) {
      return;
    }
    children := InputEntries(itemRecipe.inputs, itemMachines);
  }

  /** The work-queue loop of `run` (lines 204-254): each outer round works
      through a snapshot of the queue, removing its front entry and appending
      that entry's inputs at the back, until the queue is empty. */
  method Drain(pc: Calculator, order: seq<MachineName>, ghost rank: Item -> nat,
               needed0: map<Item, Requirement>, power0: nat, queue0: seq<Entry>)
    returns (r: Result<Report>)
    requires Ranked(pc, rank)
    ensures r == Complete(pc, order, rank, needed0, power0, queue0)
  {
    var needed, power, queue := needed0, power0, queue0;
    ghost var done: seq<Step> := [];
    PrependNil(Trace(pc, order, rank, queue));
    while queue != []
      invariant Trace(pc, order, rank, queue0) == Prepend(done, Trace(pc, order, rank, queue))
      invariant needed == Aggregate(needed0, done)
      invariant power == power0 + PowerSum(done)
      decreases SizeSum(pc, rank, queue)
    {
      var snapshot := queue;
      for k := 0 to |snapshot|
        invariant |snapshot| - k <= |queue| && queue[..|snapshot| - k] == snapshot[k..]
        invariant SizeSum(pc, rank, queue) + k == SizeSum(pc, rank, snapshot)
        invariant Trace(pc, order, rank, queue0) == Prepend(done, Trace(pc, order, rank, queue))
        invariant needed == Aggregate(needed0, done)
        invariant power == power0 + PowerSum(done)
      {
        var entry := snapshot[k];
        assert queue[0] == entry;
        var step, needed', power', children := ProcessEntry(pc, order, entry, needed, power);
        if step.Err? {
          DrainFails(pc, order, rank, needed0, power0, queue0, done, queue);
          return Err(step.error);
        }
        DrainAdvance(pc, order, rank, queue0, done, queue, step.value);
        AggregateSnoc(needed0, done, step.value);
        needed, power := needed', power';
        done := done + [step.value];
        QueueShift(snapshot, k, queue, children);
        queue := queue[1..];
        queue := queue + children;
      }
    }
    DrainDone(pc, order, rank, needed0, power0, queue0, done);
    return Ok(Report(needed, power));
  }

  /** Processing the queue's head keeps the trace of the initial queue equal to
      the processed steps followed by the trace of what is left. */
  lemma DrainAdvance(pc: Calculator, order: seq<MachineName>, rank: Item -> nat,
                     queue0: seq<Entry>, done: seq<Step>, queue: seq<Entry>, s: Step)
    requires Ranked(pc, rank)
    requires queue != [] && Resolve(pc, order, queue[0]) == Ok(s)
    requires Trace(pc, order, rank, queue0) == Prepend(done, Trace(pc, order, rank, queue))
    ensures Trace(pc, order, rank, queue0) == Prepend(done + [s], Trace(pc, order, rank, queue[1..] + Children(s)))
    ensures SizeSum(pc, rank, queue[1..] + Children(s)) + 1 == SizeSum(pc, rank, queue)
  {
    TraceStep(pc, order, rank, queue, s);
    PrependPrepend(done, [s], Trace(pc, order, rank, queue[1..] + Children(s)));
  }

  /** A head that fails to resolve is what the whole drain reports. */
  lemma DrainFails(pc: Calculator, order: seq<MachineName>, rank: Item -> nat,
                   needed0: map<Item, Requirement>, power0: nat, queue0: seq<Entry>, done: seq<Step>, queue: seq<Entry>)
    requires Ranked(pc, rank)
    requires queue != [] && Resolve(pc, order, queue[0]).Err?
    requires Trace(pc, order, rank, queue0) == Prepend(done, Trace(pc, order, rank, queue))
    ensures Complete(pc, order, rank, needed0, power0, queue0) == Err(Resolve(pc, order, queue[0]).error)
  {
    TraceFail(pc, order, rank, queue);
  }

  /** Once the queue is empty, the processed steps are the whole trace. */
  lemma DrainDone(pc: Calculator, order: seq<MachineName>, rank: Item -> nat,
                  needed0: map<Item, Requirement>, power0: nat, queue0: seq<Entry>, done: seq<Step>)
    requires Ranked(pc, rank)
    requires Trace(pc, order, rank, queue0) == Prepend(done, Trace(pc, order, rank, []))
    ensures Complete(pc, order, rank, needed0, power0, queue0)
      == Ok(Report(Aggregate(needed0, done), power0 + PowerSum(done)))
  {
    assert Trace(pc, order, rank, []) == Ok([]);
    assert Prepend(done, Ok([])) == Ok(done) by {
      assert done + [] == done;
    }
  }
}
