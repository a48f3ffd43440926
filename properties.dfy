/** What the expansion of `ProductionCalculator::run` guarantees, proved of its
    specification: the work queue is first-in-first-out, the aggregate is the
    per-item sum of per-branch results, machine counts always cover the
    demanded rate, every requirement names its item's producer, and the result
    depends neither on the iteration order of `machinexitems` nor on the rank
    chosen to witness acyclicity. */
module ExpansionProperties {
  import opened ProdCalc
  import opened Expansion

  /** Every recipe is stored under its own output item. */
  ghost predicate KeysMatchOutputs(pc: Calculator) {
    forall i :: i in pc.recipes ==> pc.recipes[i].outItem == i
  }

  /** The queue entries of a sequence of processed entries, in order. */
  function Entries(t: seq<Step>): (r: seq<Entry>)
    ensures |r| == |t|
  {
    if t == [] then [] else [t[0].entry] + Entries(t[1..])
  }

  /** Everything the processed entries `t` append to the queue, in order. */
  function ConcatChildren(t: seq<Step>): seq<Entry> {
    if t == [] then [] else Children(t[0]) + ConcatChildren(t[1..])
  }

  /** Number of inputs enqueued by the non-raw entries of `t`. */
  function ExpandedInputs(t: seq<Step>): nat {
    if t == [] then 0
    else (if IsRawResource(t[0].entry.item) then 0 else |t[0].recipe.inputs|) + ExpandedInputs(t[1..])
  }

  /** First-in-first-out: the processed entries are the initial queue followed
      by everything appended, in the order appended; each one is what the three
      lookups give for its entry. */
  lemma {:induction false} TraceFifo(pc: Calculator, order: seq<MachineName>, rank: Item -> nat,
                                     queue: seq<Entry>, t: seq<Step>)
    requires Ranked(pc, rank) && Trace(pc, order, rank, queue) == Ok(t)
    ensures Entries(t) == queue + ConcatChildren(t)
    ensures forall i :: 0 <= i < |t| ==> Resolve(pc, order, t[i].entry) == Ok(t[i])
    decreases SizeSum(pc, rank, queue)
  {
    if queue == [] {
      assert t == [];
    } else {
      TraceOkStep(pc, order, rank, queue, t);
      var s, t' := t[0], t[1..];
      var rest := queue[1..] + Children(s);
      TraceStep(pc, order, rank, queue, s);
      TraceFifo(pc, order, rank, rest, t');
      FifoCons(queue, s, t');
    }
  }

  lemma FifoCons(queue: seq<Entry>, s: Step, t': seq<Step>)
    requires queue != [] && queue[0] == s.entry
    requires Entries(t') == queue[1..] + Children(s) + ConcatChildren(t')
    ensures Entries([s] + t') == queue + ConcatChildren([s] + t')
  {
    var t := [s] + t';
    assert t[0] == s && t[1..] == t';
    assert Entries(t) == [s.entry] + Entries(t');
    assert ConcatChildren(t) == Children(s) + ConcatChildren(t');
    assert queue == [s.entry] + queue[1..];
    Regroup([s.entry], queue[1..], Children(s), ConcatChildren(t'));
  }

  /** Regrouping a four-part concatenation. */
  lemma Regroup(a: seq<Entry>, b: seq<Entry>, c: seq<Entry>, d: seq<Entry>)
    ensures a + (b + c + d) == (a + b) + (c + d)
  {
    assert b + c + d == b + (c + d);
  }

  lemma {:induction false} ConcatChildrenLength(t: seq<Step>)
    ensures |ConcatChildren(t)| == ExpandedInputs(t)
  {
    if t != [] {
      ConcatChildrenLength(t[1..]);
    }
  }

  /** Raw items enqueue nothing and every other processed item enqueues exactly
      its recipe's inputs: the trace is the initial queue plus those inputs. */
  lemma TraceLength(pc: Calculator, order: seq<MachineName>, rank: Item -> nat, queue: seq<Entry>, t: seq<Step>)
    requires Ranked(pc, rank) && Trace(pc, order, rank, queue) == Ok(t)
    ensures |t| == |queue| + ExpandedInputs(t)
  {
    TraceFifo(pc, order, rank, queue, t);
    ConcatChildrenLength(t);
  }

  /** The power total is additive over processed entries: appending a branch's
      entries adds exactly their charges. */
  lemma {:induction false} PowerSumAppend(a: seq<Step>, b: seq<Step>)
    ensures PowerSum(a + b) == PowerSum(a) + PowerSum(b)
  {
    if b == [] {
      assert a + b == a;
    } else {
      assert (a + b)[..|a + b| - 1] == a + b[..|b| - 1];
      assert (a + b)[|a + b| - 1] == b[|b| - 1];
      PowerSumAppend(a, b[..|b| - 1]);
    }
  }

  /** Entry `i` of `t` is the first one for item `x`. */
  ghost predicate FirstVisit(t: seq<Step>, i: int, x: Item) {
    0 <= i < |t| && t[i].entry.item == x && forall j :: 0 <= j < i ==> t[j].entry.item != x
  }

  lemma {:induction false} FirstVisitExists(t: seq<Step>, i: int, x: Item)
    requires 0 <= i < |t| && t[i].entry.item == x
    ensures exists j :: FirstVisit(t, j, x)
    decreases i
  {
    if !FirstVisit(t, i, x) {
      var j :| 0 <= j < i && t[j].entry.item == x;
      FirstVisitExists(t, j, x);
    }
  }

  lemma {:induction false} NoVisitNoContribution(t: seq<Step>, x: Item)
    requires forall i :: 0 <= i < |t| ==> t[i].entry.item != x
    ensures MachinesFor(t, x) == 0 && DemandFor(t, x) == 0
  {
    if t != [] {
      var p := t[..|t| - 1];
      assert forall i :: 0 <= i < |p| ==> p[i] == t[i];
      NoVisitNoContribution(p, x);
    }
  }

  /** An item is in the aggregate iff it was there initially or was processed. */
  lemma {:induction false} AggregateDomain(init: map<Item, Requirement>, t: seq<Step>, x: Item)
    ensures x in Aggregate(init, t) <==> x in init || exists i :: 0 <= i < |t| && t[i].entry.item == x
  {
    if t != [] {
      var p := t[..|t| - 1];
      AggregateDomain(init, p, x);
      assert forall i :: 0 <= i < |p| ==> p[i] == t[i];
      if t[|t| - 1].entry.item != x {
        assert (exists i :: 0 <= i < |t| && t[i].entry.item == x) ==>
               (exists i :: 0 <= i < |p| && p[i].entry.item == x);
      }
    }
  }

  /** Count and rate are the initial ones plus the sums over the item's entries. */
  lemma {:induction false} AggregateSums(init: map<Item, Requirement>, t: seq<Step>, x: Item)
    ensures x in Aggregate(init, t) ==>
      && Aggregate(init, t)[x].count == (if x in init then init[x].count else 0) + MachinesFor(t, x)
      && Aggregate(init, t)[x].rate == (if x in init then init[x].rate else 0) + DemandFor(t, x)
  {
    if t != [] {
      var p, s := t[..|t| - 1], t[|t| - 1];
      AggregateSums(init, p, x);
      if s.entry.item == x && x !in Aggregate(init, p) {
        AggregateDomain(init, p, x);
        NoVisitNoContribution(p, x);
      }
    }
  }

  /** The machine type is the one stored at first insertion. */
  lemma {:induction false} AggregateMachine(init: map<Item, Requirement>, t: seq<Step>, x: Item)
    ensures x in init ==> x in Aggregate(init, t) && Aggregate(init, t)[x].machine == init[x].machine
    ensures x !in init ==> forall i :: FirstVisit(t, i, x) ==>
      x in Aggregate(init, t) && Aggregate(init, t)[x].machine == t[i].machine
  {
    if t != [] {
      var p, s := t[..|t| - 1], t[|t| - 1];
      AggregateMachine(init, p, x);
      AggregateDomain(init, p, x);
      assert forall i :: 0 <= i < |p| ==> p[i] == t[i];
      forall i | FirstVisit(t, i, x) && x !in init
        ensures x in Aggregate(init, t) && Aggregate(init, t)[x].machine == t[i].machine
      {
        if i < |p| {
          assert FirstVisit(p, i, x);
        } else {
          assert forall j :: 0 <= j < |p| ==> p[j].entry.item != x;
        }
      }
    }
  }

  /** The aggregate in closed form: an item is present iff it was present or
      processed; its count and rate are the initial ones plus the per-entry
      ceilings and demands summed over its entries; its machine type is the one
      stored at first insertion and never changes. */
  lemma AggregateAt(init: map<Item, Requirement>, t: seq<Step>, x: Item)
    ensures x in Aggregate(init, t) <==> x in init || exists i :: 0 <= i < |t| && t[i].entry.item == x
    ensures x in Aggregate(init, t) ==>
      && Aggregate(init, t)[x].count == (if x in init then init[x].count else 0) + MachinesFor(t, x)
      && Aggregate(init, t)[x].rate == (if x in init then init[x].rate else 0) + DemandFor(t, x)
    ensures x in init ==> Aggregate(init, t)[x].machine == init[x].machine
    ensures x !in init ==> forall i :: FirstVisit(t, i, x) ==> Aggregate(init, t)[x].machine == t[i].machine
  {
    AggregateDomain(init, t, x);
    AggregateSums(init, t, x);
    AggregateMachine(init, t, x);
  }

  /** Summed per-branch ceilings cover the summed demand. */
  lemma {:induction false} MachinesCoverDemand(t: seq<Step>, x: Item, out: PosRate)
    requires forall i :: 0 <= i < |t| && t[i].entry.item == x ==> t[i].recipe.outRate == out
    ensures MachinesFor(t, x) * out >= DemandFor(t, x)
  {
    if t != [] {
      var p, s := t[..|t| - 1], t[|t| - 1];
      assert forall i :: 0 <= i < |p| ==> p[i] == t[i];
      MachinesCoverDemand(p, x, out);
      if s.entry.item == x {
        CeilDivIsCeiling(Demand(s), s.recipe.outRate);
        CoverSum(MachinesFor(p, x), StepMachines(s), DemandFor(p, x), Demand(s), out);
      }
    }
  }

  /** The whole query in closed form: the root's record holds the rounded-up
      machine count and the rounded-up actual rate, plus whatever later entries
      for the root add; every other item holds exactly what its entries add;
      the power total is the root's charge plus every entry's charge. */
  lemma ExpandTotals(pc: Calculator, order: seq<MachineName>, rank: Item -> nat, root: Item, qty: Quantity,
                     rep: Report, x: Item)
    requires Ranked(pc, rank) && KeysMatchOutputs(pc)
    requires ExpandSpec(pc, order, rank, root, qty) == Ok(rep)
    ensures root in pc.recipes && FindProducer(pc.machineItems, order, root).Some?
    ensures FindProducer(pc.machineItems, order, root).value in pc.machines
    ensures ExpandTrace(pc, order, rank, root, qty).Ok?
    ensures
      var t := ExpandTrace(pc, order, rank, root, qty).value;
      var n := RootMachines(qty, pc.recipes[root]);
      && rep.power == n * pc.machines[FindProducer(pc.machineItems, order, root).value].power + PowerSum(t)
      && (x in rep.needed <==> x == root || exists i :: 0 <= i < |t| && t[i].entry.item == x)
      && (x in rep.needed ==>
            && rep.needed[x].count == (if x == root then n else 0) + MachinesFor(t, x)
            && rep.needed[x].rate == (if x == root then n * pc.recipes[root].outRate else 0) + DemandFor(t, x))
  {
    var rs := ResolveRoot(pc, order, root, qty).value;
    var t := Trace(pc, order, rank, RootQueue(rs)).value;
    AggregateAt(RootNeeded(rs), t, x);
  }

  /** Entry `k` of `Entries(t)` is the entry of step `k`. */
  lemma {:induction false} EntriesAt(t: seq<Step>, k: int)
    requires 0 <= k < |t|
    ensures Entries(t)[k] == t[k].entry
  {
    if k > 0 {
      EntriesAt(t[1..], k - 1);
    }
  }

  /** The root's inputs are enqueued whatever the root is, raw or not: a query's
      first processed entries are the root recipe's inputs, in recipe order, at
      the root's machine count. */
  lemma ExpandRootInputsFirst(pc: Calculator, order: seq<MachineName>, rank: Item -> nat, root: Item, qty: Quantity)
    requires Ranked(pc, rank)
    requires ExpandTrace(pc, order, rank, root, qty).Ok?
    ensures root in pc.recipes
    ensures var t := ExpandTrace(pc, order, rank, root, qty).value;
      var ins := pc.recipes[root].inputs;
      && |ins| <= |t|
      && forall k :: 0 <= k < |ins| ==> t[k].entry == Entry(ins[k].item, ins[k].rate, RootMachines(qty, pc.recipes[root]))
  {
    var rs := ResolveRoot(pc, order, root, qty).value;
    var t := Trace(pc, order, rank, RootQueue(rs)).value;
    TraceFifo(pc, order, rank, RootQueue(rs), t);
    forall k | 0 <= k < |RootQueue(rs)|
      ensures t[k].entry == RootQueue(rs)[k]
    {
      EntriesAt(t, k);
    }
  }

  /** Two machine counts that cover two rates cover their sum together. */
  lemma CoverSum(c0: nat, m: nat, r0: nat, d: nat, out: nat)
    requires c0 * out >= r0 && m * out >= d
    ensures (c0 + m) * out >= r0 + d
  {
    assert (c0 + m) * out == c0 * out + m * out;
  }

  /** Merging entries that carry their item's own recipe keeps an item covered. */
  lemma AggregateCoversAt(pc: Calculator, init: map<Item, Requirement>, t: seq<Step>, x: Item)
    requires forall i :: 0 <= i < |t| ==> t[i].entry.item in pc.recipes && t[i].recipe == pc.recipes[t[i].entry.item]
    requires x in init ==> x in pc.recipes && init[x].count * pc.recipes[x].outRate >= init[x].rate
    requires x in Aggregate(init, t)
    ensures x in pc.recipes && Aggregate(init, t)[x].count * pc.recipes[x].outRate >= Aggregate(init, t)[x].rate
  {
    AggregateAt(init, t, x);
    if x !in init {
      var i :| 0 <= i < |t| && t[i].entry.item == x;
    }
    var out := pc.recipes[x].outRate;
    MachinesCoverDemand(t, x, out);
    var c0 := if x in init then init[x].count else 0;
    var r0 := if x in init then init[x].rate else 0;
    CoverSum(c0, MachinesFor(t, x), r0, DemandFor(t, x), out);
  }

  /** Machines are never under-provisioned: for every item of the report, its
      machine count times its recipe's output rate is at least its demanded rate. */
  lemma ExpandCovers(pc: Calculator, order: seq<MachineName>, rank: Item -> nat, root: Item, qty: Quantity,
                     rep: Report)
    requires Ranked(pc, rank) && KeysMatchOutputs(pc)
    requires ExpandSpec(pc, order, rank, root, qty) == Ok(rep)
    ensures forall x :: x in rep.needed ==>
      x in pc.recipes && rep.needed[x].count * pc.recipes[x].outRate >= rep.needed[x].rate
  {
    var rs := ResolveRoot(pc, order, root, qty).value;
    var t := Trace(pc, order, rank, RootQueue(rs)).value;
    TraceFifo(pc, order, rank, RootQueue(rs), t);
    assert rep.needed == Aggregate(RootNeeded(rs), t);
    forall x | x in rep.needed
      ensures x in pc.recipes && rep.needed[x].count * pc.recipes[x].outRate >= rep.needed[x].rate
    {
      AggregateCoversAt(pc, RootNeeded(rs), t, x);
    }
  }

  /** Every requirement names the machine type that produces its item. */
  lemma ExpandProducers(pc: Calculator, order: seq<MachineName>, rank: Item -> nat, root: Item, qty: Quantity,
                        rep: Report)
    requires Ranked(pc, rank) && KeysMatchOutputs(pc)
    requires ExpandSpec(pc, order, rank, root, qty) == Ok(rep)
    ensures root in rep.needed
    ensures forall x :: x in rep.needed ==> FindProducer(pc.machineItems, order, x) == Some(rep.needed[x].machine)
  {
    var rs := ResolveRoot(pc, order, root, qty).value;
    var t := Trace(pc, order, rank, RootQueue(rs)).value;
    TraceFifo(pc, order, rank, RootQueue(rs), t);
    AggregateAt(RootNeeded(rs), t, root);
    forall x | x in rep.needed
      ensures FindProducer(pc.machineItems, order, x) == Some(rep.needed[x].machine)
    {
      AggregateAt(RootNeeded(rs), t, x);
      if x !in RootNeeded(rs) {
        var i :| 0 <= i < |t| && t[i].entry.item == x;
        FirstVisitExists(t, i, x);
        var j :| FirstVisit(t, j, x);
        assert Resolve(pc, order, t[j].entry) == Ok(t[j]);
      }
    }
  }

  /** The trace does not depend on the iteration order of `machinexitems`
      when no item has two producers. */
  lemma {:induction false} TraceOrderIndependent(pc: Calculator, o1: seq<MachineName>, o2: seq<MachineName>,
                                                 rank: Item -> nat, queue: seq<Entry>)
    requires Ranked(pc, rank) && UniqueProducers(pc.machineItems)
    requires IsOrder(o1, pc.machineItems) && IsOrder(o2, pc.machineItems)
    ensures Trace(pc, o1, rank, queue) == Trace(pc, o2, rank, queue)
    decreases SizeSum(pc, rank, queue)
  {
    if queue != [] {
      FindProducerOrderIndependent(pc.machineItems, o1, o2, queue[0].item);
      assert Resolve(pc, o1, queue[0]) == Resolve(pc, o2, queue[0]);
      match Resolve(pc, o1, queue[0])
      case Ok(s) =>
        TraceStep(pc, o1, rank, queue, s);
        TraceStep(pc, o2, rank, queue, s);
        TraceOrderIndependent(pc, o1, o2, rank, queue[1..] + Children(s));
      case Err(_) =>
    }
  }

  lemma ResolveRootOrderIndependent(pc: Calculator, o1: seq<MachineName>, o2: seq<MachineName>,
                                    root: Item, qty: Quantity)
    requires UniqueProducers(pc.machineItems)
    requires IsOrder(o1, pc.machineItems) && IsOrder(o2, pc.machineItems)
    ensures ResolveRoot(pc, o1, root, qty) == ResolveRoot(pc, o2, root, qty)
  {
    FindProducerOrderIndependent(pc.machineItems, o1, o2, root);
  }

  /** Draining gives the same report under two orders whose traces agree. */
  lemma CompleteOrderIndependent(pc: Calculator, o1: seq<MachineName>, o2: seq<MachineName>, rank: Item -> nat,
                                 needed: map<Item, Requirement>, power: nat, queue: seq<Entry>)
    requires Ranked(pc, rank) && Trace(pc, o1, rank, queue) == Trace(pc, o2, rank, queue)
    ensures Complete(pc, o1, rank, needed, power, queue) == Complete(pc, o2, rank, needed, power, queue)
  {
  }

  /** A query's result does not depend on the iteration order of `machinexitems`
      when no item has two producers. */
  lemma ExpandOrderIndependent(pc: Calculator, o1: seq<MachineName>, o2: seq<MachineName>,
                               rank: Item -> nat, root: Item, qty: Quantity)
    requires Ranked(pc, rank) && UniqueProducers(pc.machineItems)
    requires IsOrder(o1, pc.machineItems) && IsOrder(o2, pc.machineItems)
    ensures ExpandSpec(pc, o1, rank, root, qty) == ExpandSpec(pc, o2, rank, root, qty)
  {
    ResolveRootOrderIndependent(pc, o1, o2, root, qty);
    match ResolveRoot(pc, o1, root, qty)
    case Err(_) =>
    case Ok(rs) =>
      TraceOrderIndependent(pc, o1, o2, rank, RootQueue(rs));
      CompleteOrderIndependent(pc, o1, o2, rank, RootNeeded(rs), RootPower(rs), RootQueue(rs));
  }

  /** The rank only witnesses termination: any two ranks give the same trace. */
  lemma {:induction false} TraceRankIndependent(pc: Calculator, order: seq<MachineName>,
                                                r1: Item -> nat, r2: Item -> nat, queue: seq<Entry>)
    requires Ranked(pc, r1) && Ranked(pc, r2)
    ensures Trace(pc, order, r1, queue) == Trace(pc, order, r2, queue)
    decreases SizeSum(pc, r1, queue)
  {
    if queue != [] {
      match Resolve(pc, order, queue[0])
      case Ok(s) =>
        TraceStep(pc, order, r1, queue, s);
        TraceStep(pc, order, r2, queue, s);
        TraceRankIndependent(pc, order, r1, r2, queue[1..] + Children(s));
      case Err(_) =>
    }
  }
}
