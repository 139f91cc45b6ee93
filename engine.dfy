/** The definitive planning engine as it runs: a material registry and a
    commodity catalogue updated in place by one ordered pass.  Every
    operation is proved against the value model of module Planning. */
module Engine {
  import opened Wrappers
  import opened Balance
  import opened Ordering
  import opened Wages
  import opened Planning

  /** The material registry, read and written in place by the pass. */
  class MaterialRegistry {
    var materials: map<string, Material>

    constructor (materials: map<string, Material>)
      ensures this.materials == materials
    {
      this.materials := materials;
    }

    /** The subscript operator: the record held under `name`, inserting the
        blank record first when there is none. */
    method Entry(name: string) returns (m: Material)
      modifies this
      ensures materials == Touched(old(materials), name)
      ensures m == Lookup(old(materials), name)
    {
      if name !in materials {
        materials := materials[name := Blank];
      }
      m := materials[name];
    }

    /** materialBalancePlanning: the shortage of one material against its
        inventory plus production capacity; the lookup inserts a blank
        record for a name the registry does not hold. */
    method MaterialBalancePlanning(materialName: string, demand: real, usageRate: real) returns (shortage: real)
      modifies this
      ensures materials == Touched(old(materials), materialName)
      ensures shortage == Planning.MaterialBalancePlanning(old(materials), materialName, demand, usageRate)
    {
      var material := Entry(materialName);
      shortage := 0.0;
      var requiredAmount := Requirement(demand, usageRate);
      var availableAmount := material.inventory + material.productionCapacity;
      if availableAmount < requiredAmount {
        shortage := requiredAmount - availableAmount;
      }
    }

    /** Draws `min(inventory, demand * usageRate)` from one material's
        inventory; nothing else in the registry changes. */
    method Deplete(materialName: string, demand: real, usageRate: real)
      modifies this
      ensures materials == old(materials)[materialName := Depleted(Lookup(old(materials), materialName), demand, usageRate)]
    {
      var m := Entry(materialName);
      var required := Requirement(demand, usageRate);
      var actualUsage := if m.inventory <= required then m.inventory else required;
      materials := materials[materialName := m.(inventory := m.inventory - actualUsage)];
      TouchedThenWritten(old(materials), materialName, Depleted(m, demand, usageRate));
    }

    /** The registry side of one iteration of the material loop: the
        shortage is assessed, a positive shortage is charged at the unit
        cost, and the inventory is drawn down. */
    method Consume(materialName: string, demand: real, usageRate: real) returns (charge: real)
      modifies this
      ensures var m := Lookup(old(materials), materialName);
              && charge == Charge(Planning.MaterialBalancePlanning(old(materials), materialName, demand, usageRate), m.cost)
              && materials == old(materials)[materialName := Depleted(m, demand, usageRate)]
    {
      ghost var stock0, m0 := materials, Lookup(materials, materialName);
      var shortage := MaterialBalancePlanning(materialName, demand, usageRate);
      charge := 0.0;
      if shortage > 0.0 {
        var material := Entry(materialName);
        assert materials == Touched(stock0, materialName);
        charge := Charge(shortage, material.cost);
      }
      assert Lookup(materials, materialName) == m0;
      Deplete(materialName, demand, usageRate);
      TouchedThenWritten(stock0, materialName, Depleted(m0, demand, usageRate));
    }

    /** calculatePrice: sums usage rate times unit cost over the listed
        materials and adds `laborRequired`.  Each registry lookup inserts a
        blank record for a missing name; a listed material without a usage
        rate stops the sum with an error, after its own registry lookup. */
    method CalculatePrice(c: Commodity) returns (r: Result<real>)
      modifies this
      ensures r == Price(old(materials), c)
      ensures r.Ok? ==> materials == TouchedAll(old(materials), c.materialNames)
      ensures r.Err? ==> exists i :: 0 <= i < |c.materialNames| && c.materialNames[i] == r.error.material
                                     && (forall j :: 0 <= j < i ==> c.materialNames[j] in c.usageRates)
                                     && materials == TouchedAll(old(materials), c.materialNames[..i + 1])
    {
      var sum := SumRateCosts(c.materialNames, c.usageRates);
      if sum.Err? {
        r := Err(sum.error);
      } else {
        r := Ok(sum.value + c.laborRequired as real);
      }
    }

    /** The loop of calculatePrice: usage rate times unit cost summed over
        `names`, stopping at the first name without a rate. */
    method SumRateCosts(names: seq<string>, rates: map<string, real>) returns (r: Result<real>)
      modifies this
      ensures r == RateCostSum(old(materials), names, rates)
      ensures r.Ok? ==> materials == TouchedAll(old(materials), names)
      ensures r.Err? ==> exists i :: 0 <= i < |names| && names[i] == r.error.material
                                     && (forall j :: 0 <= j < i ==> names[j] in rates)
                                     && materials == TouchedAll(old(materials), names[..i + 1])
    {
      var totalCost := 0.0;
      for i := 0 to |names|
        invariant materials == TouchedAll(old(materials), names[..i])
        invariant RateCostSum(old(materials), names[..i], rates) == Ok(totalCost)
      {
        var sum := AddRateCost(names, rates, i, totalCost, old(materials));
        if sum.Err? {
          r := sum;
          RateCostSumErrSticks(old(materials), names, rates, i + 1);
          RateCostSumFailsAtFirstMissing(old(materials), names[..i], rates);
          assert forall j :: 0 <= j < i ==> names[j] == names[..i][j];
          return;
        }
        totalCost := sum.value;
      }
      assert names[..|names|] == names;
      r := Ok(totalCost);
    }

    /** One iteration of the loop of calculatePrice: the registry lookup,
        then the throwing rate lookup, then the addition. */
    method AddRateCost(names: seq<string>, rates: map<string, real>, i: int, totalCost: real,
                       ghost stock0: map<string, Material>)
      returns (r: Result<real>)
      requires 0 <= i < |names|
      requires materials == TouchedAll(stock0, names[..i])
      requires RateCostSum(stock0, names[..i], rates) == Ok(totalCost)
      modifies this
      ensures materials == TouchedAll(stock0, names[..i + 1])
      ensures r == RateCostSum(stock0, names[..i + 1], rates)
      ensures r.Err? ==> r.error == MissingUsageRate(names[i])
    {
      TouchedAllPrefixStep(stock0, names, i);
      var material := Entry(names[i]);
      RateCostStep(stock0, names, rates, i, totalCost, material);
      if names[i] !in rates {
        r := Err(MissingUsageRate(names[i]));
      } else {
        r := Ok(totalCost + LineCost(rates[names[i]], material.cost));
      }
    }
  }

  /** A commodity with nothing in it: what the catalogue's subscript
      operator inserts for a name it does not hold. */
  const BlankCommodity := Commodity("", [], map[], 0, 0, 0.0, 0, [])

  /** The commodity catalogue; the pass inserts missing usage rates into it
      and writes each commodity's wages into it. */
  class CommodityCatalogue {
    var commodities: map<string, Commodity>

    constructor (commodities: map<string, Commodity>)
      ensures this.commodities == commodities
    {
      this.commodities := commodities;
    }

    /** The subscript operator: the commodity held under `key`, inserting
        an empty commodity first when there is none. */
    method Entry(key: string) returns (c: Commodity)
      modifies this
      ensures key in old(commodities) ==> commodities == old(commodities) && c == old(commodities)[key]
      ensures key !in old(commodities) ==> commodities == old(commodities)[key := BlankCommodity] && c == BlankCommodity
    {
      if key !in commodities {
        commodities := commodities[key := BlankCommodity];
      }
      c := commodities[key];
    }

    /** `usageRates[materialName]` on the commodity held under `key`: the rate,
        0 for a material without one, which is then inserted at 0. */
    method UsageRate(key: string, materialName: string) returns (rate: real)
      requires key in commodities
      modifies this
      ensures rate == RateOf(old(commodities)[key].usageRates, materialName)
      ensures commodities == old(commodities)[key := old(commodities)[key].(
                usageRates := RateInserted(old(commodities)[key].usageRates, materialName))]
    {
      var c := commodities[key];
      if materialName !in c.usageRates {
        c := c.(usageRates := c.usageRates[materialName := 0.0]);
      }
      rate := c.usageRates[materialName];
      commodities := commodities[key := c];
    }

    /** Runs the wage allocation on one commodity's worker list in place. */
    method PayWorkers(key: string)
      requires key in commodities
      modifies this
      ensures commodities == old(commodities)[key := old(commodities)[key].(
                workers := PaidWorkers(old(commodities)[key].workers, old(commodities)[key].laborRequired,
                                       old(commodities)[key].demand))]
    {
      var commodity := commodities[key];
      var workers := new Worker[|commodity.workers|](j requires 0 <= j < |commodity.workers| => commodity.workers[j]);
      assert workers[..] == commodity.workers;
      CalculateWages(workers, commodity.laborRequired, commodity.demand);
      commodities := commodities[key := commodity.(workers := workers[..])];
    }
  }

  /** The material loop of one commodity, on the live registry and the live
      catalogue entry: each listed material's rate is read (and inserted at 0
      when missing), its shortage assessed and, when positive, charged at
      its unit cost, and its inventory drawn down. */
  method MaterialLoop(registry: MaterialRegistry, catalogue: CommodityCatalogue, key: string)
    returns (shortageCost: real)
    requires key in catalogue.commodities
    modifies registry, catalogue
    ensures var c := old(catalogue.commodities)[key];
            && registry.materials == CommodityStock(old(registry.materials), c)
            && shortageCost == MaterialsPass(old(registry.materials), c.materialNames, c.usageRates, c.demand).shortageCost
            && catalogue.commodities == old(catalogue.commodities)[key := c.(
                 usageRates := FilledRates(c.usageRates, c.materialNames))]
  {
    ghost var stock0 := registry.materials;
    ghost var catalogue0 := catalogue.commodities;
    var c := catalogue.commodities[key];
    var names := c.materialNames;
    shortageCost := 0.0;
    for i := 0 to |names|
      invariant registry.materials == MaterialsPass(stock0, names[..i], c.usageRates, c.demand).stock
      invariant shortageCost == MaterialsPass(stock0, names[..i], c.usageRates, c.demand).shortageCost
      invariant catalogue.commodities == catalogue0[key := c.(usageRates := FilledRates(c.usageRates, names[..i]))]
    {
      PassPrefixStep(stock0, names, c.usageRates, c.demand, i);
      FilledRatesPrefixStep(c.usageRates, names, i);
      var usageRate := catalogue.UsageRate(key, names[i]);
      Overwritten(catalogue0, key, c.(usageRates := FilledRates(c.usageRates, names[..i])),
                  c.(usageRates := FilledRates(c.usageRates, names[..i + 1])));
      var charge := registry.Consume(names[i], c.demand, usageRate);
      shortageCost := shortageCost + charge;
    }
    assert names[..|names|] == names;
  }

  /** Writing a key twice keeps the second value. */
  lemma Overwritten<K, V>(m: map<K, V>, k: K, first: V, second: V)
    ensures m[k := first][k := second] == m[k := second]
  {
  }

  /** One commodity's step of the pass up to its wages (the live catalogue
      entry under `key`): the material loop, the labour check, the cost and
      the price.  The price is taken after the loop has inserted every
      missing rate, so it is always computed. */
  method ProcessCommodity(registry: MaterialRegistry, catalogue: CommodityCatalogue, key: string)
    returns (report: CommodityReport)
    requires key in catalogue.commodities
    modifies registry, catalogue
    ensures var c := old(catalogue.commodities)[key];
            && registry.materials == CommodityStock(old(registry.materials), c)
            && report == Report(old(registry.materials), c)
            && catalogue.commodities == old(catalogue.commodities)[key := c.(
                 usageRates := FilledRates(c.usageRates, c.materialNames))]
  {
    ghost var c := catalogue.commodities[key];
    ghost var stock0 := registry.materials;
    var commodityCost := MaterialLoop(registry, catalogue, key);
    var commodity := catalogue.commodities[key];
    var laborRequired := LaborDemand(commodity);
    var laborShortage := (commodity.laborAvailable as real) < laborRequired;
    commodityCost := commodityCost + laborRequired;
    LaborReadsFieldsOnly(c, commodity);
    CostFromPass(stock0, c, MaterialsPass(stock0, c.materialNames, c.usageRates, c.demand));
    ghost var after := registry.materials;
    TouchedAllHeld(after, commodity.materialNames);
    PricedOnceRatesFilled(after, c);
    var price := registry.CalculatePrice(commodity);
    report := CommodityReport(commodity.name, commodityCost, laborShortage, price.value);
  }

  /** The body of the pass for one catalogue entry: looks the commodity up
      in the live catalogue, runs its step and pays its workers.  The live
      entry may already have been settled by an earlier entry of the same
      name; settling is idempotent and does not change the step, so the
      outcome is the same. */
  method CommodityStep(registry: MaterialRegistry, catalogue: CommodityCatalogue, key: string,
                       ghost catalogue0: map<string, Commodity>, ghost done: set<string>, ghost listed: Commodity)
    returns (report: CommodityReport)
    requires key in catalogue0 && catalogue0[key] == listed
    requires catalogue.commodities == SettledOnly(catalogue0, done)
    modifies registry, catalogue
    ensures registry.materials == CommodityStock(old(registry.materials), listed)
    ensures report == Report(old(registry.materials), listed)
    ensures catalogue.commodities == SettledOnly(catalogue0, done + {key})
  {
    var commodity := catalogue.Entry(key);
    ghost var before := catalogue.commodities;
    if key in done {
      SettledStepsAlike(registry.materials, listed);
      SettledIdempotent(listed);
    }
    assert Settled(commodity) == Settled(listed);
    report := ProcessCommodity(registry, catalogue, key);
    ghost var filled := catalogue.commodities[key];
    catalogue.PayWorkers(key);
    Overwritten(before, key, filled, Settled(commodity));
    SettledOnlyStep(catalogue0, done, key);
  }

  /** The commodity vector sorted for processing with compareCommodity. */
  method PlanningOrder(catalogue: map<string, Commodity>) returns (order: seq<(string, Commodity)>)
    ensures IsCatalogueOrder(order, catalogue)
  {
    order := SortEntries(catalogue, EntryKey);
  }

  /** The planning pass: sorts the catalogue, then for each commodity in turn
      runs its step on the live registry, adds its cost to the total and pays
      its workers.  Afterwards every commodity of the catalogue is settled. */
  method PlanningCycle(registry: MaterialRegistry, catalogue: CommodityCatalogue)
    returns (order: seq<(string, Commodity)>, reports: seq<CommodityReport>, totalCost: real)
    modifies registry, catalogue
    ensures IsCatalogueOrder(order, old(catalogue.commodities))
    ensures registry.materials == CycleStock(old(registry.materials), Values(order))
    ensures reports == CycleReports(old(registry.materials), Values(order))
    ensures totalCost == TotalCost(reports)
    ensures catalogue.commodities == map k | k in old(catalogue.commodities) :: Settled(old(catalogue.commodities)[k])
  {
    order := PlanningOrder(catalogue.commodities);
    ghost var catalogue0 := catalogue.commodities;
    reports, totalCost := RunPass(registry, catalogue, order);
    AllSettled(catalogue0, order);
  }

  /** The loop of the pass over the entries of `order`, in order. */
  method RunPass(registry: MaterialRegistry, catalogue: CommodityCatalogue, order: seq<(string, Commodity)>)
    returns (reports: seq<CommodityReport>, totalCost: real)
    requires forall i :: 0 <= i < |order| ==> order[i].0 in catalogue.commodities && catalogue.commodities[order[i].0] == order[i].1
    modifies registry, catalogue
    ensures registry.materials == CycleStock(old(registry.materials), Values(order))
    ensures reports == CycleReports(old(registry.materials), Values(order))
    ensures totalCost == TotalCost(reports)
    ensures catalogue.commodities == SettledOnly(old(catalogue.commodities), EntryKeys(order))
  {
    ghost var stock0 := registry.materials;
    ghost var catalogue0 := catalogue.commodities;
    totalCost := 0.0;
    reports := [];
    for i := 0 to |order|
      invariant catalogue.commodities == SettledOnly(catalogue0, EntryKeys(order[..i]))
      invariant registry.materials == CycleStock(stock0, Values(order)[..i])
      invariant reports == CycleReports(stock0, Values(order)[..i])
      invariant totalCost == TotalCost(reports)
    {
      reports, totalCost := PassEntry(registry, catalogue, order, i, stock0, catalogue0, reports, totalCost);
    }
    assert order[..|order|] == order;
    assert Values(order)[..|order|] == Values(order);
  }

  /** One iteration of the loop of RunPass: the entry at `i` is processed,
      its report appended and its cost added to the total. */
  method PassEntry(registry: MaterialRegistry, catalogue: CommodityCatalogue, order: seq<(string, Commodity)>, i: int,
                   ghost stock0: map<string, Material>, ghost catalogue0: map<string, Commodity>,
                   reports: seq<CommodityReport>, totalCost: real)
    returns (reports': seq<CommodityReport>, totalCost': real)
    requires 0 <= i < |order|
    requires forall j :: 0 <= j < |order| ==> order[j].0 in catalogue0 && catalogue0[order[j].0] == order[j].1
    requires catalogue.commodities == SettledOnly(catalogue0, EntryKeys(order[..i]))
    requires registry.materials == CycleStock(stock0, Values(order)[..i])
    requires reports == CycleReports(stock0, Values(order)[..i])
    requires totalCost == TotalCost(reports)
    modifies registry, catalogue
    ensures catalogue.commodities == SettledOnly(catalogue0, EntryKeys(order[..i + 1]))
    ensures registry.materials == CycleStock(stock0, Values(order)[..i + 1])
    ensures reports' == CycleReports(stock0, Values(order)[..i + 1])
    ensures totalCost' == TotalCost(reports')
  {
    ghost var cs := Values(order);
    EntryKeysStep(order, i);
    CyclePrefixStep(stock0, cs, i);
    var report := CommodityStep(registry, catalogue, order[i].0, catalogue0, EntryKeys(order[..i]), cs[i]);
    totalCost' := totalCost + report.cost;
    TotalCostStep(reports, report);
    reports' := reports + [report];
  }
}
