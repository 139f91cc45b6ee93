/** The earlier variant of the planner.  Each commodity embeds its own copies
    of the material records (with their usage rates and unit costs); the
    registry of materials is consulted by name for the live inventory and is
    the only thing the planning pass updates. */
module Planner {
  import opened Balance
  import opened Ordering

  datatype Material = Material(name: string, inventory: real, productionCapacity: real, usageRate: real, cost: int)

  datatype Commodity = Commodity(
    name: string,
    materials: seq<Material>,
    laborRequired: int,
    laborAvailable: int,
    demand: real,
    priority: int)

  /** What one commodity's step of the pass reports: the cost of its
      shortages alone (the figure printed as its total cost), whether labour
      falls short, its full cost with labour, and its price. */
  datatype CommodityReport = CommodityReport(name: string, shortageCost: real, laborShortage: bool, cost: real, price: real)

  // ---------------------------------------------------------------- registry lookups

  /** The record the registry's subscript operator default-constructs and
      inserts for a name it does not hold. */
  const Blank := Material("", 0.0, 0.0, 0.0, 0)

  /** What `materialDatabase[name]` reads. */
  function Lookup(stock: map<string, Material>, name: string): Material
  {
    if name in stock then stock[name] else Blank
  }

  /** The registry once `materialDatabase[name]` has been evaluated: the name
      is held from then on, and no lookup reads anything different. */
  function Touched(stock: map<string, Material>, name: string): (after: map<string, Material>)
    ensures after.Keys == stock.Keys + {name}
    ensures forall k :: Lookup(after, k) == Lookup(stock, k)
  {
    if name in stock then stock else stock[name := Blank]
  }

  /** Touching a name and then writing its record is writing the record. */
  lemma TouchedThenWritten(stock: map<string, Material>, name: string, m: Material)
    ensures Touched(stock, name)[name := m] == stock[name := m]
  {
  }

  /** Two records alike in everything but inventory. */
  predicate SameRecord(before: Material, after: Material)
  {
    after == before.(inventory := after.inventory)
  }

  // ---------------------------------------------------------------- balance and price

  /** The shortage materialBalancePlanning computes for the commodity's copy of a
      material, measured against the registry's current inventory (not the
      copy's) plus the copy's production capacity. */
  function MaterialShortage(stock: map<string, Material>, material: Material, demand: real): (shortage: real)
    ensures shortage >= 0.0
    ensures shortage == 0.0
            <==> Requirement(demand, material.usageRate) <= Lookup(stock, material.name).inventory + material.productionCapacity
    ensures shortage > 0.0
            ==> shortage == Requirement(demand, material.usageRate) - (Lookup(stock, material.name).inventory + material.productionCapacity)
  {
    Shortfall(Requirement(demand, material.usageRate), Lookup(stock, material.name).inventory + material.productionCapacity)
  }

  /** The copy's own inventory, however stale, plays no part in the shortage. */
  lemma ShortageIgnoresStaleCopy(stock: map<string, Material>, material: Material, demand: real, stale: real)
    ensures MaterialShortage(stock, material.(inventory := stale), demand)
            == MaterialShortage(stock, material, demand)
  {
  }

  /** The cost line of one embedded material: its usage rate times its unit cost. */
  function LineCost(m: Material): real
  {
    m.usageRate * m.cost as real
  }

  /** The material cost of a list of embedded materials. */
  function MaterialCost(ms: seq<Material>): real
  {
    if ms == [] then 0.0 else MaterialCost(ms[..|ms| - 1]) + LineCost(ms[|ms| - 1])
  }

  /** The price of a commodity: the cost of one unit's materials at the
      embedded rates and costs, plus `laborRequired` (not scaled by demand). */
  function UnitPrice(c: Commodity): real
  {
    MaterialCost(c.materials) + c.laborRequired as real
  }

  /** With non-negative rates and costs the material cost is non-negative. */
  lemma {:induction false} MaterialCostNonNegative(ms: seq<Material>)
    requires forall i :: 0 <= i < |ms| ==> ms[i].usageRate >= 0.0 && ms[i].cost >= 0
    ensures MaterialCost(ms) >= 0.0
    decreases |ms|
  {
    if ms != [] {
      MaterialCostNonNegative(ms[..|ms| - 1]);
      var m := ms[|ms| - 1];
      assert LineCost(m) >= 0.0 by {
        assert m.usageRate >= 0.0 && m.cost as real >= 0.0;
      }
    }
  }

  /** With non-negative rates and costs, the price covers at least the labour. */
  lemma PriceAtLeastLabor(c: Commodity)
    requires forall i :: 0 <= i < |c.materials| ==> c.materials[i].usageRate >= 0.0 && c.materials[i].cost >= 0
    ensures UnitPrice(c) >= c.laborRequired as real
  {
    MaterialCostNonNegative(c.materials);
  }

  /** calculatePrice: sums the cost lines of the embedded materials, then
      adds `laborRequired`.  It reads neither the registry nor the demand. */
  method CalculatePrice(c: Commodity) returns (price: real)
    ensures price == UnitPrice(c)
  {
    var totalCost := 0.0;
    for i := 0 to |c.materials|
      invariant totalCost == MaterialCost(c.materials[..i])
    {
      assert c.materials[..i + 1][..i] == c.materials[..i];
      totalCost := totalCost + LineCost(c.materials[i]);
    }
    assert c.materials[..|c.materials|] == c.materials;
    price := totalCost + c.laborRequired as real;
  }

  // ---------------------------------------------------------------- one commodity

  /** A positive shortage charged at the copy's unit cost; no shortage costs nothing. */
  function Charge(shortage: real, unitCost: int): real
  {
    if shortage > 0.0 then shortage * unitCost as real else 0.0
  }

  /** The registry record after the commodity's requirement of it has been
      drawn: `min(inventory, requirement)` is taken from the live inventory. */
  function Depleted(m: Material, demand: real, usageRate: real): (after: Material)
    ensures SameRecord(m, after)
    ensures after.inventory >= 0.0 && after.inventory >= m.inventory - Requirement(demand, usageRate)
    ensures after.inventory == 0.0 || after.inventory == m.inventory - Requirement(demand, usageRate)
  {
    m.(inventory := Drawdown(m.inventory, Requirement(demand, usageRate)))
  }

  /** The registry and the shortage cost after the material loop of one
      commodity has processed some of its embedded materials in order. */
  datatype Pass = Pass(stock: map<string, Material>, shortageCost: real)

  /** One iteration of the material loop: the shortage of the copy is
      assessed on the registry as it stands and charged at the copy's unit
      cost, and the registry's record of that name is drawn down at the
      copy's usage rate (and held from then on). */
  function PassAdvance(prior: Pass, material: Material, demand: real): Pass
  {
    var m := Lookup(prior.stock, material.name);
    var shortage := MaterialShortage(prior.stock, material, demand);
    Pass(prior.stock[material.name := Depleted(m, demand, material.usageRate)],
         prior.shortageCost + Charge(shortage, material.cost))
  }

  /** The material loop of one commodity over its embedded materials `ms`. */
  function MaterialsPass(stock: map<string, Material>, ms: seq<Material>, demand: real): (p: Pass)
    ensures forall k :: k in stock ==> k in p.stock
    ensures forall i :: 0 <= i < |ms| ==> ms[i].name in p.stock
    decreases |ms|
  {
    if ms == [] then Pass(stock, 0.0)
    else PassAdvance(MaterialsPass(stock, ms[..|ms| - 1], demand), ms[|ms| - 1], demand)
  }

  /** One more material processed by the loop. */
  lemma PassStep(stock: map<string, Material>, ms: seq<Material>, demand: real, m: Material)
    ensures MaterialsPass(stock, ms + [m], demand) == PassAdvance(MaterialsPass(stock, ms, demand), m, demand)
  {
    assert (ms + [m])[..|ms|] == ms;
  }

  /** The loop's step from the prefix `ms[..i]` to `ms[..i + 1]`. */
  lemma PassPrefixStep(stock: map<string, Material>, ms: seq<Material>, demand: real, i: int)
    requires 0 <= i < |ms|
    ensures MaterialsPass(stock, ms[..i + 1], demand) == PassAdvance(MaterialsPass(stock, ms[..i], demand), ms[i], demand)
  {
    assert ms[..i + 1] == ms[..i] + [ms[i]];
    PassStep(stock, ms[..i], demand, ms[i]);
  }

  /** The loop changes no registry record but its inventory: capacities,
      rates and costs stay as they were. */
  lemma {:induction false} MaterialsPassChangesInventoryOnly(stock: map<string, Material>, ms: seq<Material>, demand: real, k: string)
    ensures SameRecord(Lookup(stock, k), Lookup(MaterialsPass(stock, ms, demand).stock, k))
    decreases |ms|
  {
    if ms != [] {
      MaterialsPassChangesInventoryOnly(stock, ms[..|ms| - 1], demand, k);
    }
  }

  /** A name that is not among the embedded materials keeps its record. */
  lemma {:induction false} MaterialsPassTouchesListedOnly(stock: map<string, Material>, ms: seq<Material>, demand: real, k: string)
    requires forall i :: 0 <= i < |ms| ==> ms[i].name != k
    ensures k in MaterialsPass(stock, ms, demand).stock <==> k in stock
    ensures Lookup(MaterialsPass(stock, ms, demand).stock, k) == Lookup(stock, k)
    decreases |ms|
  {
    if ms != [] {
      MaterialsPassTouchesListedOnly(stock, ms[..|ms| - 1], demand, k);
    }
  }

  /** Inventories that start non-negative stay non-negative through the loop. */
  lemma {:induction false} MaterialsPassKeepsStockNonNegative(stock: map<string, Material>, ms: seq<Material>, demand: real, k: string)
    requires Lookup(stock, k).inventory >= 0.0
    ensures Lookup(MaterialsPass(stock, ms, demand).stock, k).inventory >= 0.0
    decreases |ms|
  {
    if ms != [] {
      MaterialsPassKeepsStockNonNegative(stock, ms[..|ms| - 1], demand, k);
    }
  }

  /** With non-negative demand and usage rates, no inventory rises in the loop. */
  lemma {:induction false} MaterialsPassNeverAddsStock(stock: map<string, Material>, ms: seq<Material>, demand: real, k: string)
    requires Lookup(stock, k).inventory >= 0.0 && demand >= 0.0
    requires forall i :: 0 <= i < |ms| ==> ms[i].usageRate >= 0.0
    ensures Lookup(MaterialsPass(stock, ms, demand).stock, k).inventory <= Lookup(stock, k).inventory
    decreases |ms|
  {
    if ms != [] {
      var front := ms[..|ms| - 1];
      var m := ms[|ms| - 1];
      MaterialsPassNeverAddsStock(stock, front, demand, k);
      MaterialsPassKeepsStockNonNegative(stock, front, demand, k);
      assert Requirement(demand, m.usageRate) >= 0.0;
    }
  }

  /** With non-negative unit costs on the copies, the shortage cost is non-negative. */
  lemma {:induction false} MaterialsPassCostNonNegative(stock: map<string, Material>, ms: seq<Material>, demand: real)
    requires forall i :: 0 <= i < |ms| ==> ms[i].cost >= 0
    ensures MaterialsPass(stock, ms, demand).shortageCost >= 0.0
    decreases |ms|
  {
    if ms != [] {
      var front := MaterialsPass(stock, ms[..|ms| - 1], demand);
      MaterialsPassCostNonNegative(stock, ms[..|ms| - 1], demand);
      var m := ms[|ms| - 1];
      var shortage := MaterialShortage(front.stock, m, demand);
      assert Charge(shortage, m.cost) >= 0.0 by {
        assert shortage >= 0.0 && m.cost as real >= 0.0;
      }
    }
  }

  /** The registry after one commodity's material loop. */
  function CommodityStock(stock: map<string, Material>, c: Commodity): map<string, Material>
  {
    MaterialsPass(stock, c.materials, c.demand).stock
  }

  /** The labour cost of a commodity: `laborRequired * demand`. */
  function LaborDemand(c: Commodity): real
  {
    c.laborRequired as real * c.demand
  }

  /** The report of one commodity's step on the registry as it stands: the
      full cost is the shortage cost plus the labour cost, and the labour
      check only sets a flag. */
  function Report(stock: map<string, Material>, c: Commodity): (r: CommodityReport)
    ensures r.cost == r.shortageCost + LaborDemand(c)
    ensures r.laborShortage <==> (c.laborAvailable as real) < LaborDemand(c)
    ensures r.price == UnitPrice(c)
  {
    var p := MaterialsPass(stock, c.materials, c.demand);
    CommodityReport(c.name, p.shortageCost, (c.laborAvailable as real) < LaborDemand(c),
                    p.shortageCost + LaborDemand(c), UnitPrice(c))
  }

  /** With non-negative unit costs on the copies, shortages only ever add to
      the labour cost: a commodity's cost is at least `laborRequired * demand`. */
  lemma CostCoversLabor(stock: map<string, Material>, c: Commodity)
    requires forall i :: 0 <= i < |c.materials| ==> c.materials[i].cost >= 0
    ensures Report(stock, c).cost >= LaborDemand(c)
  {
    MaterialsPassCostNonNegative(stock, c.materials, c.demand);
  }

  /** The labour available enters neither the costs, the price nor the registry. */
  lemma LaborCheckIsReportOnly(stock: map<string, Material>, c: Commodity, available: int)
    ensures var r, r' := Report(stock, c), Report(stock, c.(laborAvailable := available));
            r'.shortageCost == r.shortageCost && r'.cost == r.cost && r'.price == r.price
    ensures CommodityStock(stock, c.(laborAvailable := available)) == CommodityStock(stock, c)
  {
  }

  // ---------------------------------------------------------------- the pass

  /** The registry after the pass over `cs` in order. */
  function CycleStock(stock: map<string, Material>, cs: seq<Commodity>): (after: map<string, Material>)
    ensures forall k :: k in stock ==> k in after
    decreases |cs|
  {
    if cs == [] then stock else CommodityStock(CycleStock(stock, cs[..|cs| - 1]), cs[|cs| - 1])
  }

  /** The reports of the pass over `cs`, one per commodity, in order. */
  function CycleReports(stock: map<string, Material>, cs: seq<Commodity>): (rs: seq<CommodityReport>)
    ensures |rs| == |cs|
    decreases |cs|
  {
    if cs == [] then []
    else
      var front := cs[..|cs| - 1];
      CycleReports(stock, front) + [Report(CycleStock(stock, front), cs[|cs| - 1])]
  }

  /** The total cost of a pass: the sum of the commodity costs. */
  function TotalCost(rs: seq<CommodityReport>): real
  {
    if rs == [] then 0.0 else TotalCost(rs[..|rs| - 1]) + rs[|rs| - 1].cost
  }

  /** Each commodity is assessed on the registry exactly as the commodities
      before it in the pass left it. */
  lemma {:induction false} LaterCommoditiesSeeEarlierDraws(stock: map<string, Material>, cs: seq<Commodity>, i: int)
    requires 0 <= i < |cs|
    ensures CycleReports(stock, cs)[i] == Report(CycleStock(stock, cs[..i]), cs[i])
    decreases |cs|
  {
    var front := cs[..|cs| - 1];
    if i < |cs| - 1 {
      LaterCommoditiesSeeEarlierDraws(stock, front, i);
      assert front[..i] == cs[..i];
    } else {
      assert cs[..i] == front;
    }
  }

  /** The pass changes no registry record but its inventory. */
  lemma {:induction false} CycleChangesInventoryOnly(stock: map<string, Material>, cs: seq<Commodity>, k: string)
    ensures SameRecord(Lookup(stock, k), Lookup(CycleStock(stock, cs), k))
    decreases |cs|
  {
    if cs != [] {
      var c := cs[|cs| - 1];
      CycleChangesInventoryOnly(stock, cs[..|cs| - 1], k);
      MaterialsPassChangesInventoryOnly(CycleStock(stock, cs[..|cs| - 1]), c.materials, c.demand, k);
    }
  }

  /** Inventories that start non-negative stay non-negative through the pass. */
  lemma {:induction false} CycleKeepsStockNonNegative(stock: map<string, Material>, cs: seq<Commodity>, k: string)
    requires Lookup(stock, k).inventory >= 0.0
    ensures Lookup(CycleStock(stock, cs), k).inventory >= 0.0
    decreases |cs|
  {
    if cs != [] {
      var c := cs[|cs| - 1];
      CycleKeepsStockNonNegative(stock, cs[..|cs| - 1], k);
      MaterialsPassKeepsStockNonNegative(CycleStock(stock, cs[..|cs| - 1]), c.materials, c.demand, k);
    }
  }

  /** One more commodity processed by the pass. */
  lemma CycleStep(stock: map<string, Material>, cs: seq<Commodity>, c: Commodity)
    ensures CycleStock(stock, cs + [c]) == CommodityStock(CycleStock(stock, cs), c)
    ensures CycleReports(stock, cs + [c]) == CycleReports(stock, cs) + [Report(CycleStock(stock, cs), c)]
  {
    assert (cs + [c])[..|cs|] == cs;
  }

  /** The step of the pass from the prefix `cs[..i]` to `cs[..i + 1]`. */
  lemma CyclePrefixStep(stock: map<string, Material>, cs: seq<Commodity>, i: int)
    requires 0 <= i < |cs|
    ensures CycleStock(stock, cs[..i + 1]) == CommodityStock(CycleStock(stock, cs[..i]), cs[i])
    ensures CycleReports(stock, cs[..i + 1]) == CycleReports(stock, cs[..i]) + [Report(CycleStock(stock, cs[..i]), cs[i])]
  {
    assert cs[..i + 1] == cs[..i] + [cs[i]];
    CycleStep(stock, cs[..i], cs[i]);
  }

  /** Adding one more report adds its cost to the total. */
  lemma TotalCostStep(rs: seq<CommodityReport>, r: CommodityReport)
    ensures TotalCost(rs + [r]) == TotalCost(rs) + r.cost
  {
    assert (rs + [r])[..|rs|] == rs;
  }

  // ---------------------------------------------------------------- order

  /** The sort keys of a (name, commodity) entry, as compareCommodity reads them. */
  function EntryKey(e: (string, Commodity)): PlanKey
  {
    PlanKey(e.1.priority, e.1.demand)
  }

  /** `order` lists every catalogue entry exactly once, sorted for processing. */
  predicate IsCatalogueOrder(order: seq<(string, Commodity)>, catalogue: map<string, Commodity>)
  {
    && |order| == |catalogue|
    && (forall i :: 0 <= i < |order| ==> order[i].0 in catalogue && catalogue[order[i].0] == order[i].1)
    && (forall k :: k in catalogue ==> (k, catalogue[k]) in order)
    && SortedByPlan(order, EntryKey)
  }

  /** The two commodities the planner is set up with. */
  const MaterialA := Material("Material A", 50.0, 100.0, 0.5, 15)
  const MaterialB := Material("Material B", 40.0, 150.0, 0.6, 14)
  const MaterialC := Material("Material C", 60.0, 200.0, 0.7, 18)
  const Chair := Commodity("Chair", [MaterialA, MaterialB], 13, 1000, 100.0, 5)
  const Bread := Commodity("Bread", [MaterialA, MaterialC], 16, 5000, 201.0, 1)
  const SampleCatalogue := map["Chair" := Chair, "Bread" := Bread]

  /** With the sample catalogue, Bread (a basic need) is processed before
      Chair (a consumer good), whatever order the map yields them in. */
  lemma SampleOrderPutsBreadFirst(order: seq<(string, Commodity)>)
    requires IsCatalogueOrder(order, SampleCatalogue)
    ensures |order| == 2 && order[0] == ("Bread", Bread) && order[1] == ("Chair", Chair)
  {
    assert SampleCatalogue.Keys == {"Chair", "Bread"};
    assert |order| == 2;
    assert ("Bread", Bread) in order && ("Chair", Chair) in order;
    var b :| 0 <= b < 2 && order[b] == ("Bread", Bread);
    var c :| 0 <= c < 2 && order[c] == ("Chair", Chair);
    assert Precedes(EntryKey(order[b]), EntryKey(order[c]));
    assert b < c;
  }

  // ---------------------------------------------------------------- the registry in place

  /** The material registry, read and written in place by the pass. */
  class MaterialRegistry {
    var materials: map<string, Material>

    constructor (materials: map<string, Material>)
      ensures this.materials == materials
    {
      this.materials := materials;
    }

    /** The subscript operator: the record held under `name`, inserting the
        blank record first when there is none. */
    method Entry(name: string) returns (m: Material)
      modifies this
      ensures materials == Touched(old(materials), name)
      ensures m == Lookup(old(materials), name)
    {
      if name !in materials {
        materials := materials[name := Blank];
      }
      m := materials[name];
    }

    /** materialBalancePlanning: the inventory is taken from the copy unless
        the registry holds a different one, in which case the registry's is
        used; the lookup inserts a blank record for an unknown name. */
    method MaterialBalancePlanning(material: Material, demand: real) returns (shortage: real)
      modifies this
      ensures materials == Touched(old(materials), material.name)
      ensures shortage == MaterialShortage(old(materials), material, demand)
    {
      shortage := 0.0;
      var inventory := material.inventory;
      var held := Entry(material.name);
      if held.inventory != inventory {
        held := Entry(material.name);
        inventory := held.inventory;
      }
      var requiredAmount := Requirement(demand, material.usageRate);
      var availableAmount := inventory + material.productionCapacity;
      if availableAmount < requiredAmount {
        shortage := requiredAmount - availableAmount;
      }
    }

    /** The registry side of one iteration of the material loop: the
        shortage of the copy is assessed, a positive shortage is charged at
        the copy's unit cost, and the registry's inventory is drawn down. */
    method Consume(material: Material, demand: real) returns (charge: real)
      modifies this
      ensures var m := Lookup(old(materials), material.name);
              && charge == Charge(MaterialShortage(old(materials), material, demand), material.cost)
              && materials == old(materials)[material.name := Depleted(m, demand, material.usageRate)]
    {
      var shortage := MaterialBalancePlanning(material, demand);
      charge := 0.0;
      if shortage > 0.0 {
        charge := shortage * material.cost as real;
      }
      Deplete(material, demand);
      TouchedThenWritten(old(materials), material.name, Depleted(Lookup(old(materials), material.name), demand, material.usageRate));
    }

    /** Draws `min(inventory, demand * usageRate)` from the registry's
        inventory of one material; nothing else in the registry changes. */
    method Deplete(material: Material, demand: real)
      modifies this
      ensures materials == old(materials)[material.name := Depleted(Lookup(old(materials), material.name), demand, material.usageRate)]
    {
      var m := Entry(material.name);
      var required := Requirement(demand, material.usageRate);
      var actualUsage := if m.inventory <= required then m.inventory else required;
      materials := materials[material.name := m.(inventory := m.inventory - actualUsage)];
    }
  }

  /** The material loop of one commodity: each embedded material's shortage
      is charged at its copy's unit cost, then the registry is drawn down. */
  method MaterialLoop(registry: MaterialRegistry, c: Commodity) returns (shortageCost: real)
    modifies registry
    ensures registry.materials == CommodityStock(old(registry.materials), c)
    ensures shortageCost == MaterialsPass(old(registry.materials), c.materials, c.demand).shortageCost
  {
    ghost var stock0 := registry.materials;
    shortageCost := 0.0;
    for i := 0 to |c.materials|
      invariant Pass(registry.materials, shortageCost) == MaterialsPass(stock0, c.materials[..i], c.demand)
    {
      PassPrefixStep(stock0, c.materials, c.demand, i);
      var charge := registry.Consume(c.materials[i], c.demand);
      shortageCost := shortageCost + charge;
    }
    assert c.materials[..|c.materials|] == c.materials;
  }

  /** One commodity's step: the material loop, the labour check, the cost
      with labour added, and the price. */
  method ProcessCommodity(registry: MaterialRegistry, c: Commodity) returns (report: CommodityReport)
    modifies registry
    ensures registry.materials == CommodityStock(old(registry.materials), c)
    ensures report == Report(old(registry.materials), c)
  {
    var commodityCost := MaterialLoop(registry, c);
    var shortageCost := commodityCost;
    var laborRequired := LaborDemand(c);
    var laborShortage := (c.laborAvailable as real) < laborRequired;
    commodityCost := commodityCost + LaborDemand(c);
    var price := CalculatePrice(c);
    report := CommodityReport(c.name, shortageCost, laborShortage, commodityCost, price);
  }

  /** The planning pass: the catalogue's entries sorted with compareCommodity
      and processed in order on the live registry.  Each commodity is a copy
      taken from the catalogue, which the pass leaves alone; only registry
      inventories change. */
  method PlanningCycle(registry: MaterialRegistry, catalogue: map<string, Commodity>)
    returns (order: seq<(string, Commodity)>, reports: seq<CommodityReport>, totalCost: real)
    modifies registry
    ensures IsCatalogueOrder(order, catalogue)
    ensures registry.materials == CycleStock(old(registry.materials), Values(order))
    ensures reports == CycleReports(old(registry.materials), Values(order))
    ensures totalCost == TotalCost(reports)
  {
    order := SortEntries(catalogue, EntryKey);
    ghost var stock0 := registry.materials;
    ghost var cs := Values(order);
    totalCost := 0.0;
    reports := [];
    for i := 0 to |order|
      invariant registry.materials == CycleStock(stock0, cs[..i])
      invariant reports == CycleReports(stock0, cs[..i])
      invariant totalCost == TotalCost(reports)
    {
      CyclePrefixStep(stock0, cs, i);
      var report := ProcessCommodity(registry, order[i].1);
      TotalCostStep(reports, report);
      totalCost := totalCost + report.cost;
      reports := reports + [report];
    }
    assert cs[..|order|] == cs;
  }
}
