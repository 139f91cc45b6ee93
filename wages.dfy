/** The wage allocator of the definitive planner: a commodity's labour
    budget, `laborRequired * demand`, split among its workers in proportion
    to the hours each worked. */
module Wages {

  datatype Worker = Worker(name: string, hoursWorked: int, wage: real)

  /** Hours worked by all workers together. */
  function TotalHours(ws: seq<Worker>): int
  {
    if ws == [] then 0 else TotalHours(ws[..|ws| - 1]) + ws[|ws| - 1].hoursWorked
  }

  /** Wages paid to all workers together. */
  function TotalWages(ws: seq<Worker>): real
  {
    if ws == [] then 0.0 else TotalWages(ws[..|ws| - 1]) + ws[|ws| - 1].wage
  }

  /** The labour budget to be shared out. */
  function Budget(laborRequired: int, demand: real): real
  {
    laborRequired as real * demand
  }

  /** Pay per hour: the budget over the total hours, and 0 when no hours
      were worked so that nothing is divided by zero. */
  function WagePerHour(ws: seq<Worker>, laborRequired: int, demand: real): real
  {
    var total := TotalHours(ws);
    if total == 0 then 0.0 else Budget(laborRequired, demand) / total as real
  }

  /** The pay for `hours` hours at `rate` per hour. */
  function Wage(rate: real, hours: int): real
  {
    rate * hours as real
  }

  /** Every worker paid `rate` per hour worked. */
  function PaidAt(ws: seq<Worker>, rate: real): (paid: seq<Worker>)
    ensures |paid| == |ws|
    ensures forall i :: 0 <= i < |ws| ==> paid[i] == ws[i].(wage := Wage(rate, ws[i].hoursWorked))
  {
    seq(|ws|, i requires 0 <= i < |ws| => ws[i].(wage := Wage(rate, ws[i].hoursWorked)))
  }

  /** The workers after wage allocation for the given labour requirement. */
  function PaidWorkers(ws: seq<Worker>, laborRequired: int, demand: real): seq<Worker>
  {
    PaidAt(ws, WagePerHour(ws, laborRequired, demand))
  }

  /** Dividing by a non-zero number and multiplying back returns the budget. */
  lemma DivThenMul(budget: real, hours: real)
    requires hours != 0.0
    ensures (budget / hours) * hours == budget
  {
  }

  /** Pay per hour times the total hours is the whole budget. */
  lemma WagePerHourCoversBudget(ws: seq<Worker>, laborRequired: int, demand: real)
    requires TotalHours(ws) != 0
    ensures WagePerHour(ws, laborRequired, demand) * TotalHours(ws) as real == Budget(laborRequired, demand)
  {
    DivThenMul(Budget(laborRequired, demand), TotalHours(ws) as real);
  }

  lemma ShareOfProduct(wage: real, rate: real, hours: real, total: real, budget: real)
    requires wage == rate * hours && rate * total == budget
    ensures wage * total == budget * hours
  {
    assert (rate * hours) * total == (rate * total) * hours;
  }

  lemma Distribute(rate: real, a: real, b: real)
    ensures rate * a + rate * b == rate * (a + b)
  {
  }

  /** Paying every worker `rate` per hour pays `rate` times the total hours. */
  lemma {:induction false} PaidAtTotal(ws: seq<Worker>, rate: real)
    ensures TotalWages(PaidAt(ws, rate)) == rate * TotalHours(ws) as real
    decreases |ws|
  {
    if ws != [] {
      var n := |ws| - 1;
      PaidAtPrefix(ws, rate, n);
      PaidAtTotal(ws[..n], rate);
      Distribute(rate, TotalHours(ws[..n]) as real, ws[n].hoursWorked as real);
    }
  }

  /** Paying a prefix of the roster is the same as paying the roster and
      taking that prefix. */
  lemma PaidAtPrefix(ws: seq<Worker>, rate: real, n: int)
    requires 0 <= n <= |ws|
    ensures PaidAt(ws, rate)[..n] == PaidAt(ws[..n], rate)
  {
    assert forall i :: 0 <= i < n ==> PaidAt(ws, rate)[..n][i] == PaidAt(ws[..n], rate)[i];
  }

  /** Allocation keeps the roster: same workers, names and hours, in the
      same order; only wages are written. */
  lemma PaidWorkersKeepRoster(ws: seq<Worker>, laborRequired: int, demand: real)
    ensures |PaidWorkers(ws, laborRequired, demand)| == |ws|
    ensures forall i :: 0 <= i < |ws| ==>
              PaidWorkers(ws, laborRequired, demand)[i].name == ws[i].name
              && PaidWorkers(ws, laborRequired, demand)[i].hoursWorked == ws[i].hoursWorked
  {
  }

  /** With hours on the books, the wages add up to the whole budget. */
  lemma WagesSumToBudget(ws: seq<Worker>, laborRequired: int, demand: real)
    requires TotalHours(ws) != 0
    ensures TotalWages(PaidWorkers(ws, laborRequired, demand)) == Budget(laborRequired, demand)
  {
    PaidAtTotal(ws, WagePerHour(ws, laborRequired, demand));
    WagePerHourCoversBudget(ws, laborRequired, demand);
  }

  /** With no hours on the books every wage is 0 and so is their total. */
  lemma NoHoursNoWages(ws: seq<Worker>, laborRequired: int, demand: real)
    requires TotalHours(ws) == 0
    ensures forall i :: 0 <= i < |ws| ==> PaidWorkers(ws, laborRequired, demand)[i].wage == 0.0
    ensures TotalWages(PaidWorkers(ws, laborRequired, demand)) == 0.0
  {
    PaidAtTotal(ws, 0.0);
  }

  /** Each wage is the worker's share of the budget, hours worked over total
      hours: with hours on the books, the allocation's wage times the total
      hours is the budget times the worker's hours. */
  lemma {:induction false} WageIsShareOfBudget(ws: seq<Worker>, laborRequired: int, demand: real, i: int)
    requires TotalHours(ws) != 0 && 0 <= i < |ws|
    ensures PaidWorkers(ws, laborRequired, demand)[i].wage * TotalHours(ws) as real
            == Budget(laborRequired, demand) * ws[i].hoursWorked as real
  {
    WagePerHourCoversBudget(ws, laborRequired, demand);
    ShareAtRate(ws, WagePerHour(ws, laborRequired, demand), Budget(laborRequired, demand), TotalHours(ws) as real, i);
  }

  /** At a pay rate that covers `budget` over `total` hours, wage times total
      hours is the budget times the worker's hours. */
  lemma ShareAtRate(ws: seq<Worker>, rate: real, budget: real, total: real, i: int)
    requires 0 <= i < |ws| && rate * total == budget
    ensures PaidAt(ws, rate)[i].wage * total == budget * ws[i].hoursWorked as real
  {
    var w, h := PaidAt(ws, rate)[i].wage, ws[i].hoursWorked as real;
    assert w == rate * h;
    ShareOfProduct(w, rate, h, total, budget);
  }

  /** Allocating again changes nothing: wages are derived from hours alone. */
  lemma {:induction false} PaidWorkersIdempotent(ws: seq<Worker>, laborRequired: int, demand: real)
    ensures PaidWorkers(PaidWorkers(ws, laborRequired, demand), laborRequired, demand)
            == PaidWorkers(ws, laborRequired, demand)
  {
    var paid := PaidWorkers(ws, laborRequired, demand);
    SameHoursSameTotal(paid, ws);
    var rate := WagePerHour(ws, laborRequired, demand);
    assert WagePerHour(paid, laborRequired, demand) == rate;
    assert forall i :: 0 <= i < |ws| ==> PaidAt(paid, rate)[i] == paid[i];
  }

  /** Two rosters with the same hours, worker by worker, have the same total. */
  lemma {:induction false} SameHoursSameTotal(a: seq<Worker>, b: seq<Worker>)
    requires |a| == |b| && forall i :: 0 <= i < |a| ==> a[i].hoursWorked == b[i].hoursWorked
    ensures TotalHours(a) == TotalHours(b)
    decreases |a|
  {
    if a != [] {
      SameHoursSameTotal(a[..|a| - 1], b[..|b| - 1]);
    }
  }

  /** calculateWages: sums the hours, then writes each worker's wage in place. */
  method CalculateWages(workers: array<Worker>, laborRequired: int, demand: real)
    modifies workers
    ensures workers[..] == PaidWorkers(old(workers[..]), laborRequired, demand)
  {
    var totalHoursWorked := 0;
    for i := 0 to workers.Length
      invariant totalHoursWorked == TotalHours(workers[..i])
    {
      assert workers[..i + 1][..i] == workers[..i];
      totalHoursWorked := totalHoursWorked + workers[i].hoursWorked;
    }
    assert workers[..workers.Length] == workers[..];
    var totalWageBudget := Budget(laborRequired, demand);
    var wagePerHour: real;
    if totalHoursWorked == 0 {
      wagePerHour := 0.0;
    } else {
      wagePerHour := totalWageBudget / totalHoursWorked as real;
    }
    ghost var before := workers[..];
    assert wagePerHour == WagePerHour(before, laborRequired, demand);
    for i := 0 to workers.Length
      invariant forall k :: 0 <= k < i ==> workers[k] == before[k].(wage := Wage(wagePerHour, before[k].hoursWorked))
      invariant forall k :: i <= k < workers.Length ==> workers[k] == before[k]
    {
      workers[i] := workers[i].(wage := Wage(wagePerHour, workers[i].hoursWorked));
    }
    assert forall k :: 0 <= k < workers.Length ==> workers[..][k] == PaidAt(before, wagePerHour)[k];
  }
}
