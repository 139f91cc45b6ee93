/** The definitive planning engine, as values: a registry of materials, a
    catalogue of commodities, and what one ordered pass over the catalogue
    computes — the shortage of each material, the cost of each commodity,
    its price and the registry it leaves behind.  The engine that runs the
    pass in place is in module Engine. */
module Planning {
  import opened Wrappers
  import opened Balance
  import opened Ordering
  import opened Wages

  datatype Material = Material(name: string, inventory: real, productionCapacity: real, cost: real)

  datatype Commodity = Commodity(
    name: string,
    materialNames: seq<string>,
    usageRates: map<string, real>,
    laborRequired: int,
    laborAvailable: int,
    demand: real,
    priority: int,
    workers: seq<Worker>)

  /** What one commodity's step of the pass reports. */
  datatype CommodityReport = CommodityReport(name: string, cost: real, laborShortage: bool, price: real)

  // ---------------------------------------------------------------- lookups

  /** The record the registry's subscript operator default-constructs and
      inserts for a name it does not hold: no name, and zero inventory,
      capacity and unit cost. */
  const Blank := Material("", 0.0, 0.0, 0.0)

  /** What `materialDatabase[name]` reads. */
  function Lookup(stock: map<string, Material>, name: string): Material
  {
    if name in stock then stock[name] else Blank
  }

  /** The registry once `materialDatabase[name]` has been evaluated: the name
      is held from then on, and no lookup reads anything different. */
  function Touched(stock: map<string, Material>, name: string): (after: map<string, Material>)
    ensures after.Keys == stock.Keys + {name}
    ensures forall k :: Lookup(after, k) == Lookup(stock, k)
  {
    if name in stock then stock else stock[name := Blank]
  }

  /** The registry once `materialDatabase[n]` has been evaluated for each of `names`. */
  function TouchedAll(stock: map<string, Material>, names: seq<string>): (after: map<string, Material>)
    ensures forall k :: k in after <==> k in stock || k in names
    ensures forall k :: Lookup(after, k) == Lookup(stock, k)
    decreases |names|
  {
    if names == [] then stock
    else
      Touched(TouchedAll(stock, names[..|names| - 1]), names[|names| - 1])
  }

  /** One more name touched. */
  lemma TouchedAllPrefixStep(stock: map<string, Material>, names: seq<string>, i: int)
    requires 0 <= i < |names|
    ensures TouchedAll(stock, names[..i + 1]) == Touched(TouchedAll(stock, names[..i]), names[i])
  {
    assert names[..i + 1][..i] == names[..i];
  }

  /** Touching a name and then writing its record is writing the record. */
  lemma TouchedThenWritten(stock: map<string, Material>, name: string, m: Material)
    ensures Touched(stock, name)[name := m] == stock[name := m]
  {
  }

  /** Touching names the registry already holds leaves it as it is. */
  lemma {:induction false} TouchedAllHeld(stock: map<string, Material>, names: seq<string>)
    requires forall n :: n in names ==> n in stock
    ensures TouchedAll(stock, names) == stock
    decreases |names|
  {
    if names != [] {
      TouchedAllHeld(stock, names[..|names| - 1]);
    }
  }

  /** What `usageRates[name]` reads: 0 for a name without a rate. */
  function RateOf(rates: map<string, real>, name: string): real
  {
    if name in rates then rates[name] else 0.0
  }

  /** The rates once `usageRates[name]` has been evaluated: a missing name is
      inserted with rate 0, and no rate reads anything different. */
  function RateInserted(rates: map<string, real>, name: string): (after: map<string, real>)
    ensures after.Keys == rates.Keys + {name}
    ensures forall k :: RateOf(after, k) == RateOf(rates, k)
  {
    if name in rates then rates else rates[name := 0.0]
  }

  /** The rates once `usageRates[n]` has been evaluated for each of `names`. */
  function FilledRates(rates: map<string, real>, names: seq<string>): (after: map<string, real>)
    ensures forall k :: k in after <==> k in rates || k in names
    ensures forall k :: RateOf(after, k) == RateOf(rates, k)
    decreases |names|
  {
    if names == [] then rates
    else
      RateInserted(FilledRates(rates, names[..|names| - 1]), names[|names| - 1])
  }

  /** One more rate read. */
  lemma FilledRatesPrefixStep(rates: map<string, real>, names: seq<string>, i: int)
    requires 0 <= i < |names|
    ensures FilledRates(rates, names[..i + 1]) == RateInserted(FilledRates(rates, names[..i]), names[i])
  {
    assert names[..i + 1][..i] == names[..i];
  }

  /** Two rate maps with the same names that read the same are equal. */
  lemma SameRatesSameMap(a: map<string, real>, b: map<string, real>)
    requires a.Keys == b.Keys
    requires forall k :: RateOf(a, k) == RateOf(b, k)
    ensures a == b
  {
    forall k | k in a ensures a[k] == b[k] {
      assert RateOf(a, k) == RateOf(b, k);
    }
  }

  /** Filling the rates a second time changes nothing. */
  lemma FilledRatesIdempotent(rates: map<string, real>, names: seq<string>)
    ensures FilledRates(FilledRates(rates, names), names) == FilledRates(rates, names)
  {
    var once := FilledRates(rates, names);
    var twice := FilledRates(once, names);
    forall k ensures RateOf(twice, k) == RateOf(once, k) {
    }
    SameRatesSameMap(twice, once);
  }

  /** `after` is `before` with at most its inventory changed. */
  predicate SameRecord(before: Material, after: Material)
  {
    after == before.(inventory := after.inventory)
  }

  // ---------------------------------------------------------------- balance

  /** materialBalancePlanning: the shortage of one material for a demand at a
      usage rate, against the registry's inventory plus production capacity
      for it (a name the registry does not hold reads as the blank record). */
  function MaterialBalancePlanning(stock: map<string, Material>, materialName: string, demand: real, usageRate: real)
    : (shortage: real)
    ensures var m := Lookup(stock, materialName);
            && shortage >= 0.0
            && (shortage == 0.0 <==> Requirement(demand, usageRate) <= m.inventory + m.productionCapacity)
            && (shortage > 0.0 ==> shortage == Requirement(demand, usageRate) - (m.inventory + m.productionCapacity))
  {
    var m := Lookup(stock, materialName);
    Shortfall(Requirement(demand, usageRate), m.inventory + m.productionCapacity)
  }

  /** What remedying a shortage costs: a positive shortage at the unit cost. */
  function Charge(shortage: real, unitCost: real): real
  {
    if shortage > 0.0 then shortage * unitCost else 0.0
  }

  /** A charge at a non-negative unit cost is non-negative. */
  lemma ChargeNonNegative(shortage: real, unitCost: real)
    requires unitCost >= 0.0
    ensures Charge(shortage, unitCost) >= 0.0
  {
  }

  /** The record after `demand * usageRate` has been drawn from its inventory. */
  function Depleted(m: Material, demand: real, usageRate: real): (after: Material)
    ensures SameRecord(m, after)
    ensures after.inventory >= 0.0
    ensures after.inventory == 0.0 || after.inventory == m.inventory - Requirement(demand, usageRate)
    ensures after.inventory >= m.inventory - Requirement(demand, usageRate)
  {
    m.(inventory := Drawdown(m.inventory, Requirement(demand, usageRate)))
  }

  // ---------------------------------------------------------------- price

  /** calculatePrice's sum over `names` of usage rate times unit cost.  The
      rate is read with a throwing lookup, so the first listed material
      without a rate is an error; a material the registry does not hold reads
      as the blank record, whose unit cost is 0. */
  function RateCostSum(stock: map<string, Material>, names: seq<string>, rates: map<string, real>): Result<real>
    decreases |names|
  {
    if names == [] then Ok(0.0)
    else
      var n := names[|names| - 1];
      match RateCostSum(stock, names[..|names| - 1], rates)
      case Err(e) => Err(e)
      case Ok(sum) => if n !in rates then Err(MissingUsageRate(n)) else Ok(sum + LineCost(rates[n], Lookup(stock, n).cost))
  }

  /** The sum fails exactly when a listed material has no rate, and then it
      names the first such material. */
  lemma {:induction false} RateCostSumFailsAtFirstMissing(stock: map<string, Material>, names: seq<string>, rates: map<string, real>)
    ensures RateCostSum(stock, names, rates).Ok? <==> forall n :: n in names ==> n in rates
    ensures RateCostSum(stock, names, rates).Err? ==>
              exists i :: 0 <= i < |names| && names[i] == RateCostSum(stock, names, rates).error.material
                          && names[i] !in rates && forall j :: 0 <= j < i ==> names[j] in rates
    decreases |names|
  {
    if names != [] {
      var front := names[..|names| - 1];
      var n := names[|names| - 1];
      RateCostSumFailsAtFirstMissing(stock, front, rates);
      assert names == front + [n];
      var r, prior := RateCostSum(stock, names, rates), RateCostSum(stock, front, rates);
      if prior.Err? {
        assert r == prior;
        var i :| 0 <= i < |front| && front[i] == prior.error.material
                 && front[i] !in rates && forall j :: 0 <= j < i ==> front[j] in rates;
        assert names[i] == front[i];
      } else if n !in rates {
        assert r == Err(MissingUsageRate(n));
        assert names[|front|] == n;
      } else {
        assert r.Ok?;
      }
    }
  }

  /** One more material summed, as calculatePrice's loop takes it. */
  lemma RateCostSumPrefixStep(stock: map<string, Material>, names: seq<string>, rates: map<string, real>, i: int)
    requires 0 <= i < |names|
    requires RateCostSum(stock, names[..i], rates).Ok?
    ensures RateCostSum(stock, names[..i + 1], rates)
            == if names[i] !in rates then Err(MissingUsageRate(names[i]))
               else Ok(RateCostSum(stock, names[..i], rates).value + LineCost(rates[names[i]], Lookup(stock, names[i]).cost))
  {
    assert names[..i + 1][..i] == names[..i];
  }

  /** One more name of calculatePrice's loop, read through the registry as
      the earlier iterations left it: a missing rate throws, otherwise the
      line cost at the record's unit cost is added. */
  lemma RateCostStep(stock: map<string, Material>, names: seq<string>, rates: map<string, real>, i: int,
                     total: real, m: Material)
    requires 0 <= i < |names|
    requires RateCostSum(stock, names[..i], rates) == Ok(total)
    requires m == Lookup(TouchedAll(stock, names[..i]), names[i])
    ensures names[i] !in rates ==> RateCostSum(stock, names[..i + 1], rates) == Err(MissingUsageRate(names[i]))
    ensures names[i] in rates ==> RateCostSum(stock, names[..i + 1], rates) == Ok(total + LineCost(rates[names[i]], m.cost))
  {
    RateCostSumPrefixStep(stock, names, rates, i);
  }

  /** The first error ends the sum: it is the error of the whole. */
  lemma {:induction false} RateCostSumErrSticks(stock: map<string, Material>, names: seq<string>, rates: map<string, real>, j: int)
    requires 0 <= j <= |names|
    requires RateCostSum(stock, names[..j], rates).Err?
    ensures RateCostSum(stock, names, rates) == RateCostSum(stock, names[..j], rates)
    decreases |names|
  {
    if j == |names| {
      assert names[..j] == names;
    } else {
      var front := names[..|names| - 1];
      assert front[..j] == names[..j];
      RateCostSumErrSticks(stock, front, rates, j);
    }
  }

  /** One material's contribution to the price: usage rate times unit cost. */
  function LineCost(usageRate: real, unitCost: real): real
  {
    usageRate * unitCost
  }

  /** calculatePrice: the commodity's unit price, material cost per unit of
      demand plus `laborRequired` (not scaled by demand). */
  function Price(stock: map<string, Material>, c: Commodity): Result<real>
  {
    match RateCostSum(stock, c.materialNames, c.usageRates)
    case Err(e) => Err(e)
    case Ok(materialCost) => Ok(materialCost + c.laborRequired as real)
  }

  /** calculatePrice fails exactly when a listed material has no usage rate,
      and then it names the first such material. */
  lemma PriceFailsAtFirstMissingRate(stock: map<string, Material>, c: Commodity)
    ensures Price(stock, c).Ok? <==> forall n :: n in c.materialNames ==> n in c.usageRates
    ensures Price(stock, c).Err? ==>
              exists i :: 0 <= i < |c.materialNames| && c.materialNames[i] == Price(stock, c).error.material
                          && c.materialNames[i] !in c.usageRates
                          && forall j :: 0 <= j < i ==> c.materialNames[j] in c.usageRates
  {
    RateCostSumFailsAtFirstMissing(stock, c.materialNames, c.usageRates);
  }

  /** The material part of the price read through the non-throwing lookups. */
  function MaterialCost(stock: map<string, Material>, names: seq<string>, rates: map<string, real>): real
    decreases |names|
  {
    if names == [] then 0.0
    else
      var n := names[|names| - 1];
      MaterialCost(stock, names[..|names| - 1], rates) + LineCost(RateOf(rates, n), Lookup(stock, n).cost)
  }

  /** The unit price read through the non-throwing lookups. */
  function UnitPrice(stock: map<string, Material>, c: Commodity): real
  {
    MaterialCost(stock, c.materialNames, c.usageRates) + c.laborRequired as real
  }

  /** When the throwing sum succeeds it agrees with the non-throwing one. */
  lemma {:induction false} RateCostSumIsMaterialCost(stock: map<string, Material>, names: seq<string>, rates: map<string, real>)
    requires RateCostSum(stock, names, rates).Ok?
    ensures RateCostSum(stock, names, rates).value == MaterialCost(stock, names, rates)
    decreases |names|
  {
    if names != [] {
      RateCostSumIsMaterialCost(stock, names[..|names| - 1], rates);
    }
  }

  /** A price that is computed at all is the unit price. */
  lemma PriceIsUnitPrice(stock: map<string, Material>, c: Commodity)
    ensures Price(stock, c).Ok? ==> Price(stock, c).value == UnitPrice(stock, c)
  {
    if Price(stock, c).Ok? {
      RateCostSumIsMaterialCost(stock, c.materialNames, c.usageRates);
    }
  }

  /** The material cost reads only the unit costs and the rates of the listed
      materials. */
  lemma {:induction false} MaterialCostReadsCostsAndRates(
    stock: map<string, Material>, stock': map<string, Material>, names: seq<string>,
    rates: map<string, real>, rates': map<string, real>)
    requires forall n :: n in names ==> Lookup(stock', n).cost == Lookup(stock, n).cost
    requires forall n :: n in names ==> RateOf(rates', n) == RateOf(rates, n)
    ensures MaterialCost(stock', names, rates') == MaterialCost(stock, names, rates)
    decreases |names|
  {
    if names != [] {
      var n := names[|names| - 1];
      assert n in names;
      MaterialCostReadsCostsAndRates(stock, stock', names[..|names| - 1], rates, rates');
    }
  }

  /** The price depends only on the listed materials, their usage rates, their
      unit costs and `laborRequired`: neither demand, inventories, capacities,
      labour availability nor workers change it.  In particular the price is
      the same before and after the registry is drawn down. */
  lemma UnitPriceReadsCostsOnly(stock: map<string, Material>, stock': map<string, Material>, c: Commodity, c': Commodity)
    requires forall k :: Lookup(stock', k).cost == Lookup(stock, k).cost
    requires c'.materialNames == c.materialNames && c'.laborRequired == c.laborRequired
    requires forall k :: RateOf(c'.usageRates, k) == RateOf(c.usageRates, k)
    ensures UnitPrice(stock', c') == UnitPrice(stock, c)
  {
    MaterialCostReadsCostsAndRates(stock, stock', c.materialNames, c.usageRates, c'.usageRates);
  }

  /** With non-negative usage rates and unit costs the material cost is
      non-negative. */
  lemma {:induction false} MaterialCostNonNegative(stock: map<string, Material>, names: seq<string>, rates: map<string, real>)
    requires forall k :: k in stock ==> stock[k].cost >= 0.0
    requires forall k :: k in rates ==> rates[k] >= 0.0
    ensures MaterialCost(stock, names, rates) >= 0.0
    decreases |names|
  {
    if names != [] {
      var n := names[|names| - 1];
      MaterialCostNonNegative(stock, names[..|names| - 1], rates);
      assert RateOf(rates, n) >= 0.0 && Lookup(stock, n).cost >= 0.0;
    }
  }

  /** With non-negative usage rates and unit costs the price is at least
      `laborRequired`. */
  lemma PriceAtLeastLabor(stock: map<string, Material>, c: Commodity)
    requires forall k :: k in stock ==> stock[k].cost >= 0.0
    requires forall k :: k in c.usageRates ==> c.usageRates[k] >= 0.0
    ensures UnitPrice(stock, c) >= c.laborRequired as real
    ensures Price(stock, c).Ok? ==> Price(stock, c).value >= c.laborRequired as real
  {
    MaterialCostNonNegative(stock, c.materialNames, c.usageRates);
    PriceIsUnitPrice(stock, c);
  }

  /** Once every listed material has a rate — as it has after the pass's
      material loop, which inserts a 0 rate for each missing one — the price
      is computed without error. */
  lemma PricedOnceRatesFilled(stock: map<string, Material>, c: Commodity)
    ensures Price(stock, c.(usageRates := FilledRates(c.usageRates, c.materialNames))).Ok?
    ensures Price(stock, c.(usageRates := FilledRates(c.usageRates, c.materialNames))).value == UnitPrice(stock, c)
  {
    var filled := c.(usageRates := FilledRates(c.usageRates, c.materialNames));
    PriceFailsAtFirstMissingRate(stock, filled);
    PriceIsUnitPrice(stock, filled);
    UnitPriceReadsCostsOnly(stock, stock, c, filled);
  }

  // ---------------------------------------------------------------- one commodity

  /** The registry and the shortage cost after the material loop of one
      commodity has processed some of its materials in order. */
  datatype Pass = Pass(stock: map<string, Material>, shortageCost: real)

  /** One iteration of the material loop: the shortage is assessed on the
      registry as it stands, a positive shortage is charged at the material's
      unit cost, and the material is drawn down (and held from then on). */
  function PassAdvance(prior: Pass, name: string, usageRate: real, demand: real): Pass
  {
    var m := Lookup(prior.stock, name);
    var shortage := MaterialBalancePlanning(prior.stock, name, demand, usageRate);
    Pass(prior.stock[name := Depleted(m, demand, usageRate)], prior.shortageCost + Charge(shortage, m.cost))
  }

  /** The material loop of one commodity over `names`, each at the rate
      `usageRates[name]` reads. */
  function MaterialsPass(stock: map<string, Material>, names: seq<string>, rates: map<string, real>, demand: real)
    : (p: Pass)
    ensures forall k :: k in p.stock <==> k in stock || k in names
    decreases |names|
  {
    if names == [] then Pass(stock, 0.0)
    else
      var name := names[|names| - 1];
      PassAdvance(MaterialsPass(stock, names[..|names| - 1], rates, demand), name, RateOf(rates, name), demand)
  }

  /** The loop changes no record but its inventory. */
  lemma {:induction false} MaterialsPassChangesInventoryOnly(
    stock: map<string, Material>, names: seq<string>, rates: map<string, real>, demand: real, k: string)
    ensures SameRecord(Lookup(stock, k), Lookup(MaterialsPass(stock, names, rates, demand).stock, k))
    decreases |names|
  {
    if names != [] {
      MaterialsPassChangesInventoryOnly(stock, names[..|names| - 1], rates, demand, k);
    }
  }

  /** One more material processed by the loop. */
  lemma PassStep(stock: map<string, Material>, names: seq<string>, rates: map<string, real>, demand: real, name: string)
    ensures MaterialsPass(stock, names + [name], rates, demand)
            == PassAdvance(MaterialsPass(stock, names, rates, demand), name, RateOf(rates, name), demand)
  {
    assert (names + [name])[..|names|] == names;
  }

  /** The loop's step from the prefix `names[..i]` to `names[..i + 1]`. */
  lemma PassPrefixStep(stock: map<string, Material>, names: seq<string>, rates: map<string, real>, demand: real, i: int)
    requires 0 <= i < |names|
    ensures MaterialsPass(stock, names[..i + 1], rates, demand)
            == PassAdvance(MaterialsPass(stock, names[..i], rates, demand), names[i], RateOf(rates, names[i]), demand)
  {
    assert names[..i + 1] == names[..i] + [names[i]];
    PassStep(stock, names[..i], rates, demand, names[i]);
  }

  /** The loop reads the rates only through `usageRates[name]`, so inserting
      0 rates for missing names changes nothing. */
  lemma {:induction false} MaterialsPassReadsRates(
    stock: map<string, Material>, names: seq<string>, rates: map<string, real>, rates': map<string, real>, demand: real)
    requires forall k :: RateOf(rates', k) == RateOf(rates, k)
    ensures MaterialsPass(stock, names, rates', demand) == MaterialsPass(stock, names, rates, demand)
    decreases |names|
  {
    if names != [] {
      MaterialsPassReadsRates(stock, names[..|names| - 1], rates, rates', demand);
    }
  }

  /** Inventories that start non-negative stay non-negative through the loop,
      and every material it draws down ends non-negative. */
  lemma {:induction false} MaterialsPassKeepsStockNonNegative(
    stock: map<string, Material>, names: seq<string>, rates: map<string, real>, demand: real, k: string)
    requires Lookup(stock, k).inventory >= 0.0
    ensures Lookup(MaterialsPass(stock, names, rates, demand).stock, k).inventory >= 0.0
    decreases |names|
  {
    if names != [] {
      MaterialsPassKeepsStockNonNegative(stock, names[..|names| - 1], rates, demand, k);
    }
  }

  /** With non-negative unit costs the shortage cost of the loop is non-negative. */
  lemma {:induction false} MaterialsPassCostNonNegative(
    stock: map<string, Material>, names: seq<string>, rates: map<string, real>, demand: real)
    requires forall k :: k in stock ==> stock[k].cost >= 0.0
    ensures MaterialsPass(stock, names, rates, demand).shortageCost >= 0.0
    decreases |names|
  {
    if names != [] {
      var front := names[..|names| - 1];
      var name := names[|names| - 1];
      MaterialsPassCostNonNegative(stock, front, rates, demand);
      var prior := MaterialsPass(stock, front, rates, demand);
      MaterialsPassChangesInventoryOnly(stock, front, rates, demand, name);
      var shortage := MaterialBalancePlanning(prior.stock, name, demand, RateOf(rates, name));
      ChargeNonNegative(shortage, Lookup(prior.stock, name).cost);
    }
  }

  /** With non-negative demand and usage rates the loop never adds stock. */
  lemma {:induction false} MaterialsPassNeverAddsStock(
    stock: map<string, Material>, names: seq<string>, rates: map<string, real>, demand: real, k: string)
    requires demand >= 0.0 && forall r :: r in rates ==> rates[r] >= 0.0
    requires Lookup(stock, k).inventory >= 0.0
    ensures Lookup(MaterialsPass(stock, names, rates, demand).stock, k).inventory <= Lookup(stock, k).inventory
    decreases |names|
  {
    if names != [] {
      var front := names[..|names| - 1];
      var name := names[|names| - 1];
      MaterialsPassNeverAddsStock(stock, front, rates, demand, k);
      if k == name {
        var prior := MaterialsPass(stock, front, rates, demand);
        MaterialsPassKeepsStockNonNegative(stock, front, rates, demand, k);
        RequirementNonNegative(demand, RateOf(rates, name));
        assert Depleted(Lookup(prior.stock, k), demand, RateOf(rates, name)).inventory <= Lookup(prior.stock, k).inventory;
      }
    }
  }

  /** A material the commodity does not list is left exactly as it was. */
  lemma {:induction false} MaterialsPassTouchesListedOnly(
    stock: map<string, Material>, names: seq<string>, rates: map<string, real>, demand: real, k: string)
    requires k !in names
    ensures k in MaterialsPass(stock, names, rates, demand).stock <==> k in stock
    ensures Lookup(MaterialsPass(stock, names, rates, demand).stock, k) == Lookup(stock, k)
    decreases |names|
  {
    if names != [] {
      MaterialsPassTouchesListedOnly(stock, names[..|names| - 1], rates, demand, k);
    }
  }

  /** A listed material the registry does not hold is read as the blank
      record: the whole requirement is reported as shortage, but it is
      charged at unit cost 0, so the shortage cost does not grow. */
  lemma UnheldMaterialChargedNothing(prior: Pass, name: string, usageRate: real, demand: real)
    requires name !in prior.stock
    ensures Requirement(demand, usageRate) >= 0.0 ==>
              MaterialBalancePlanning(prior.stock, name, demand, usageRate) == Requirement(demand, usageRate)
    ensures PassAdvance(prior, name, usageRate, demand).shortageCost == prior.shortageCost
  {
  }

  /** A listed material without a usage rate is read at rate 0: no
      requirement, so no shortage while supply is non-negative, and no draw. */
  lemma UnratedMaterialDrawsNothing(prior: Pass, name: string, rates: map<string, real>, demand: real)
    requires name !in rates
    requires Lookup(prior.stock, name).inventory >= 0.0 && Lookup(prior.stock, name).productionCapacity >= 0.0
    ensures MaterialBalancePlanning(prior.stock, name, demand, RateOf(rates, name)) == 0.0
    ensures PassAdvance(prior, name, RateOf(rates, name), demand).shortageCost == prior.shortageCost
    ensures PassAdvance(prior, name, RateOf(rates, name), demand).stock[name] == Lookup(prior.stock, name)
  {
  }

  /** The registry after one commodity's material loop. */
  function CommodityStock(stock: map<string, Material>, c: Commodity): map<string, Material>
  {
    MaterialsPass(stock, c.materialNames, c.usageRates, c.demand).stock
  }

  /** The labour a commodity's demand calls for: hours per unit times units. */
  function LaborDemand(c: Commodity): real
  {
    c.laborRequired as real * c.demand
  }

  /** The commodity's cost for the pass: shortage cost plus `laborRequired * demand`. */
  function CommodityCost(stock: map<string, Material>, c: Commodity): real
  {
    MaterialsPass(stock, c.materialNames, c.usageRates, c.demand).shortageCost + LaborDemand(c)
  }

  /** The labour check: less labour available than `laborRequired * demand`. */
  predicate LaborShortage(c: Commodity)
  {
    (c.laborAvailable as real) < LaborDemand(c)
  }

  /** What the pass reports for one commodity; the price is taken on the
      registry as the commodity's own material loop left it. */
  function Report(stock: map<string, Material>, c: Commodity): CommodityReport
  {
    CommodityReport(c.name, CommodityCost(stock, c), LaborShortage(c), UnitPrice(CommodityStock(stock, c), c))
  }

  /** The labour check only reports: labour availability changes neither the
      cost, the price nor the registry. */
  lemma LaborCheckIsReportOnly(stock: map<string, Material>, c: Commodity, available: int)
    ensures Report(stock, c.(laborAvailable := available)).cost == Report(stock, c).cost
    ensures Report(stock, c.(laborAvailable := available)).price == Report(stock, c).price
    ensures CommodityStock(stock, c.(laborAvailable := available)) == CommodityStock(stock, c)
  {
  }

  /** The commodity as the pass leaves it in the catalogue: a 0 rate inserted
      for each listed material that had none, and its wages allocated. */
  function Settled(c: Commodity): Commodity
  {
    c.(usageRates := FilledRates(c.usageRates, c.materialNames),
       workers := PaidWorkers(c.workers, c.laborRequired, c.demand))
  }

  /** Settling a settled commodity again changes nothing. */
  lemma SettledIdempotent(c: Commodity)
    ensures Settled(Settled(c)) == Settled(c)
  {
    FilledRatesIdempotent(c.usageRates, c.materialNames);
    PaidWorkersIdempotent(c.workers, c.laborRequired, c.demand);
  }

  /** A settled commodity takes the same step of the pass as the original:
      the inserted rates read as before and wages play no part. */
  lemma SettledStepsAlike(stock: map<string, Material>, c: Commodity)
    ensures CommodityStock(stock, Settled(c)) == CommodityStock(stock, c)
    ensures Report(stock, Settled(c)) == Report(stock, c)
  {
    StepReadsRatesOnly(stock, c, Settled(c));
  }

  /** A step reads the usage rates only through `usageRates[name]` and does
      not read the workers. */
  lemma StepReadsRatesOnly(stock: map<string, Material>, c: Commodity, c': Commodity)
    requires c'.name == c.name && c'.materialNames == c.materialNames && c'.demand == c.demand
    requires c'.laborRequired == c.laborRequired && c'.laborAvailable == c.laborAvailable
    requires forall k :: RateOf(c'.usageRates, k) == RateOf(c.usageRates, k)
    ensures CommodityStock(stock, c') == CommodityStock(stock, c)
    ensures Report(stock, c') == Report(stock, c)
  {
    var p := MaterialsPass(stock, c.materialNames, c.usageRates, c.demand);
    MaterialsPassReadsRates(stock, c.materialNames, c.usageRates, c'.usageRates, c.demand);
    LaborReadsFieldsOnly(c, c');
    CostFromPass(stock, c', p);
    CostFromPass(stock, c, p);
    MaterialCostReadsCostsAndRates(p.stock, p.stock, c.materialNames, c.usageRates, c'.usageRates);
  }

  lemma LaborReadsFieldsOnly(c: Commodity, c': Commodity)
    requires c'.demand == c.demand && c'.laborRequired == c.laborRequired
    ensures LaborDemand(c') == LaborDemand(c)
  {
  }

  lemma CostFromPass(stock: map<string, Material>, c: Commodity, p: Pass)
    requires MaterialsPass(stock, c.materialNames, c.usageRates, c.demand) == p
    ensures CommodityCost(stock, c) == p.shortageCost + LaborDemand(c)
  {
  }

  // ---------------------------------------------------------------- the pass

  /** The registry after the pass over `cs` in order; each commodity sees the
      registry as the commodities before it left it. */
  function CycleStock(stock: map<string, Material>, cs: seq<Commodity>): (after: map<string, Material>)
    ensures forall k :: k in stock ==> k in after
    decreases |cs|
  {
    if cs == [] then stock else CommodityStock(CycleStock(stock, cs[..|cs| - 1]), cs[|cs| - 1])
  }

  /** The pass changes no record but its inventory. */
  lemma {:induction false} CycleChangesInventoryOnly(stock: map<string, Material>, cs: seq<Commodity>, k: string)
    ensures SameRecord(Lookup(stock, k), Lookup(CycleStock(stock, cs), k))
    decreases |cs|
  {
    if cs != [] {
      var c := cs[|cs| - 1];
      CycleChangesInventoryOnly(stock, cs[..|cs| - 1], k);
      MaterialsPassChangesInventoryOnly(CycleStock(stock, cs[..|cs| - 1]), c.materialNames, c.usageRates, c.demand, k);
    }
  }

  /** The reports of the pass over `cs`, one per commodity, in order. */
  function CycleReports(stock: map<string, Material>, cs: seq<Commodity>): (rs: seq<CommodityReport>)
    ensures |rs| == |cs|
    decreases |cs|
  {
    if cs == [] then []
    else
      var front := cs[..|cs| - 1];
      CycleReports(stock, front) + [Report(CycleStock(stock, front), cs[|cs| - 1])]
  }

  /** Each commodity is assessed on the registry exactly as the commodities
      before it in the pass left it. */
  lemma {:induction false} LaterCommoditiesSeeEarlierDraws(stock: map<string, Material>, cs: seq<Commodity>, i: int)
    requires 0 <= i < |cs|
    ensures CycleReports(stock, cs)[i] == Report(CycleStock(stock, cs[..i]), cs[i])
    decreases |cs|
  {
    var front := cs[..|cs| - 1];
    if i < |cs| - 1 {
      LaterCommoditiesSeeEarlierDraws(stock, front, i);
      assert front[..i] == cs[..i];
    } else {
      assert cs[..i] == front;
    }
  }

  /** The total cost of a pass: the sum of the commodity costs. */
  function TotalCost(rs: seq<CommodityReport>): real
  {
    if rs == [] then 0.0 else TotalCost(rs[..|rs| - 1]) + rs[|rs| - 1].cost
  }

  /** The labour bill of a pass: the sum of `laborRequired * demand`. */
  function LaborBill(cs: seq<Commodity>): real
  {
    if cs == [] then 0.0 else LaborBill(cs[..|cs| - 1]) + LaborDemand(cs[|cs| - 1])
  }

  /** With non-negative unit costs, a commodity costs at least its labour. */
  lemma CostCoversLabor(stock: map<string, Material>, c: Commodity)
    requires forall k :: k in stock ==> stock[k].cost >= 0.0
    ensures CommodityCost(stock, c) >= LaborDemand(c)
  {
    MaterialsPassCostNonNegative(stock, c.materialNames, c.usageRates, c.demand);
  }

  /** Unit costs that start non-negative stay so: the pass writes no cost,
      and the records it inserts cost 0. */
  lemma CycleKeepsCostsNonNegative(stock: map<string, Material>, cs: seq<Commodity>)
    requires forall k :: k in stock ==> stock[k].cost >= 0.0
    ensures forall k :: k in CycleStock(stock, cs) ==> CycleStock(stock, cs)[k].cost >= 0.0
  {
    forall k | k in CycleStock(stock, cs) ensures CycleStock(stock, cs)[k].cost >= 0.0 {
      CycleChangesInventoryOnly(stock, cs, k);
    }
  }

  /** With non-negative unit costs, shortages only ever add to the labour
      bill: the total cost of the pass is at least its labour bill. */
  lemma {:induction false} TotalCostCoversLaborBill(stock: map<string, Material>, cs: seq<Commodity>)
    requires forall k :: k in stock ==> stock[k].cost >= 0.0
    ensures TotalCost(CycleReports(stock, cs)) >= LaborBill(cs)
    decreases |cs|
  {
    if cs != [] {
      var front := cs[..|cs| - 1];
      var last := cs[|cs| - 1];
      TotalCostCoversLaborBill(stock, front);
      CycleKeepsCostsNonNegative(stock, front);
      CostCoversLabor(CycleStock(stock, front), last);
      TotalCostStep(CycleReports(stock, front), Report(CycleStock(stock, front), last));
    }
  }

  /** Inventories that start non-negative stay non-negative through the pass. */
  lemma {:induction false} CycleKeepsStockNonNegative(stock: map<string, Material>, cs: seq<Commodity>, k: string)
    requires Lookup(stock, k).inventory >= 0.0
    ensures Lookup(CycleStock(stock, cs), k).inventory >= 0.0
    decreases |cs|
  {
    if cs != [] {
      var c := cs[|cs| - 1];
      CycleKeepsStockNonNegative(stock, cs[..|cs| - 1], k);
      MaterialsPassKeepsStockNonNegative(CycleStock(stock, cs[..|cs| - 1]), c.materialNames, c.usageRates, c.demand, k);
    }
  }

  /** With non-negative demands and usage rates no inventory rises in a pass. */
  lemma {:induction false} CycleNeverAddsStock(stock: map<string, Material>, cs: seq<Commodity>, k: string)
    requires Lookup(stock, k).inventory >= 0.0
    requires forall i :: 0 <= i < |cs| ==> cs[i].demand >= 0.0
    requires forall i, r :: 0 <= i < |cs| && r in cs[i].usageRates ==> cs[i].usageRates[r] >= 0.0
    ensures Lookup(CycleStock(stock, cs), k).inventory <= Lookup(stock, k).inventory
    decreases |cs|
  {
    if cs != [] {
      var front := cs[..|cs| - 1];
      var c := cs[|cs| - 1];
      CycleNeverAddsStock(stock, front, k);
      CycleKeepsStockNonNegative(stock, front, k);
      MaterialsPassNeverAddsStock(CycleStock(stock, front), c.materialNames, c.usageRates, c.demand, k);
    }
  }

  /** One more commodity processed by the pass. */
  lemma CycleStep(stock: map<string, Material>, cs: seq<Commodity>, c: Commodity)
    ensures CycleStock(stock, cs + [c]) == CommodityStock(CycleStock(stock, cs), c)
    ensures CycleReports(stock, cs + [c]) == CycleReports(stock, cs) + [Report(CycleStock(stock, cs), c)]
  {
    assert (cs + [c])[..|cs|] == cs;
  }

  /** The step of the pass from the prefix `cs[..i]` to `cs[..i + 1]`. */
  lemma CyclePrefixStep(stock: map<string, Material>, cs: seq<Commodity>, i: int)
    requires 0 <= i < |cs|
    ensures CycleStock(stock, cs[..i + 1]) == CommodityStock(CycleStock(stock, cs[..i]), cs[i])
    ensures CycleReports(stock, cs[..i + 1]) == CycleReports(stock, cs[..i]) + [Report(CycleStock(stock, cs[..i]), cs[i])]
  {
    assert cs[..i + 1] == cs[..i] + [cs[i]];
    CycleStep(stock, cs[..i], cs[i]);
  }

  /** Adding one more report adds its cost to the total. */
  lemma TotalCostStep(rs: seq<CommodityReport>, r: CommodityReport)
    ensures TotalCost(rs + [r]) == TotalCost(rs) + r.cost
  {
    assert (rs + [r])[..|rs|] == rs;
  }

  // ---------------------------------------------------------------- order and catalogue

  /** The sort keys of a (name, commodity) entry. */
  function EntryKey(e: (string, Commodity)): PlanKey
  {
    PlanKey(e.1.priority, e.1.demand)
  }

  /** The names of the entries of a vector. */
  function EntryKeys(entries: seq<(string, Commodity)>): (keys: set<string>)
    ensures forall j :: 0 <= j < |entries| ==> entries[j].0 in keys
  {
    if entries == [] then {} else EntryKeys(entries[..|entries| - 1]) + {entries[|entries| - 1].0}
  }

  /** One more entry adds its name to the names of a prefix. */
  lemma EntryKeysStep(entries: seq<(string, Commodity)>, i: int)
    requires 0 <= i < |entries|
    ensures EntryKeys(entries[..i + 1]) == EntryKeys(entries[..i]) + {entries[i].0}
  {
    assert entries[..i + 1][..i] == entries[..i];
  }

  /** `order` lists every catalogue entry exactly once, sorted for processing. */
  predicate IsCatalogueOrder(order: seq<(string, Commodity)>, catalogue: map<string, Commodity>)
  {
    && |order| == |catalogue|
    && (forall i :: 0 <= i < |order| ==> order[i].0 in catalogue && catalogue[order[i].0] == order[i].1)
    && (forall k :: k in catalogue ==> (k, catalogue[k]) in order)
    && SortedByPlan(order, EntryKey)
  }

  /** The catalogue with the commodities named in `done` settled and the
      others as they were. */
  function SettledOnly(catalogue: map<string, Commodity>, done: set<string>): (r: map<string, Commodity>)
    ensures r.Keys == catalogue.Keys
    ensures forall k :: k in done && k in catalogue ==> r[k] == Settled(catalogue[k])
    ensures forall k :: k !in done && k in catalogue ==> r[k] == catalogue[k]
  {
    map k | k in catalogue :: if k in done then Settled(catalogue[k]) else catalogue[k]
  }

  /** Settling one more commodity extends the set of settled ones. */
  lemma SettledOnlyStep(catalogue: map<string, Commodity>, done: set<string>, key: string)
    requires key in catalogue
    ensures SettledOnly(catalogue, done)[key := Settled(catalogue[key])] == SettledOnly(catalogue, done + {key})
  {
  }

  /** Once every entry of a catalogue order has been processed, every
      commodity of the catalogue is settled. */
  lemma AllSettled(catalogue: map<string, Commodity>, order: seq<(string, Commodity)>)
    requires IsCatalogueOrder(order, catalogue)
    ensures SettledOnly(catalogue, EntryKeys(order)) == map k | k in catalogue :: Settled(catalogue[k])
  {
    forall k | k in catalogue ensures k in EntryKeys(order) {
      var j :| 0 <= j < |order| && order[j] == (k, catalogue[k]);
    }
  }
}
