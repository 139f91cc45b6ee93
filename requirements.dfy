/** The first draft of the planner: a requirement and shortage calculator
    that records what one demand calls for into two ledgers kept for the
    whole run, the requirement of each material and the shortage of each
    under-supplied one.  The ledgers are never cleared between calls. */
module Requirements {
  import opened Balance

  /** What subscripting a by-value copy of a quantity map reads: the held
      value, or 0 for a name it does not hold (the inserted 0 is visible to
      nobody but that copy). */
  function ValueOr0(m: map<string, real>, name: string): real
  {
    if name in m then m[name] else 0.0
  }

  /** The supply of a material: its inventory plus its production capacity,
      each 0 when not given. */
  function Supply(inventory: map<string, real>, productionCapacity: map<string, real>, name: string): real
  {
    ValueOr0(inventory, name) + ValueOr0(productionCapacity, name)
  }

  /** The requirement ledger after one call: every material of the call
      holds its new requirement, and every other entry is kept. */
  function Recorded(prior: map<string, real>, demand: real, materials: map<string, real>): (r: map<string, real>)
    ensures forall k :: k in r <==> k in prior || k in materials
    ensures forall k :: k in materials ==> r[k] == Requirement(demand, materials[k])
    ensures forall k :: k in prior && k !in materials ==> r[k] == prior[k]
  {
    RecordedOn(prior, demand, materials, materials.Keys)
  }

  /** The requirement of `name` is recorded and its supply falls short of it. */
  predicate Short(requirements: map<string, real>, inventory: map<string, real>, productionCapacity: map<string, real>, name: string)
  {
    name in requirements && Supply(inventory, productionCapacity, name) < requirements[name]
  }

  /** The amount by which supply falls short of the recorded requirement. */
  function Gap(requirements: map<string, real>, inventory: map<string, real>, productionCapacity: map<string, real>, name: string): real
    requires name in requirements
  {
    requirements[name] - Supply(inventory, productionCapacity, name)
  }

  /** The names of `requirements` whose supply falls short of them. */
  function Undersupplied(requirements: map<string, real>, inventory: map<string, real>, productionCapacity: map<string, real>)
    : (names: set<string>)
    ensures forall k :: k in names <==> k in requirements && Supply(inventory, productionCapacity, k) < requirements[k]
  {
    set k | k in requirements && Supply(inventory, productionCapacity, k) < requirements[k]
  }

  /** The shortage ledger after checking `requirements` against the supply:
      an entry is written for each under-supplied name, holding the positive
      amount by which supply falls short, and every other entry is kept. */
  function ShortagesRecorded(prior: map<string, real>, requirements: map<string, real>,
                             inventory: map<string, real>, productionCapacity: map<string, real>): (r: map<string, real>)
    ensures forall k :: k in r <==> k in prior || k in Undersupplied(requirements, inventory, productionCapacity)
    ensures forall k :: k in Undersupplied(requirements, inventory, productionCapacity) ==>
              r[k] == requirements[k] - Supply(inventory, productionCapacity, k) && r[k] > 0.0
    ensures forall k :: k in prior && k !in Undersupplied(requirements, inventory, productionCapacity) ==> r[k] == prior[k]
  {
    ShortagesOn(prior, requirements, inventory, productionCapacity, requirements.Keys)
  }

  /** Every shortage recorded is a shortage of a recorded requirement, and a
      call keeps it that way. */
  lemma ShortagesStayWithinRequirements(
    requirements: map<string, real>, shortage: map<string, real>, demand: real,
    materials: map<string, real>, inventory: map<string, real>, productionCapacity: map<string, real>)
    requires forall k :: k in shortage ==> k in requirements
    ensures var requirements' := Recorded(requirements, demand, materials);
            forall k :: k in ShortagesRecorded(shortage, requirements', inventory, productionCapacity) ==> k in requirements'
  {
  }

  /** Starting from empty ledgers, the shortage ledger names exactly the
      materials of the call whose supply falls short, and the "enough
      supply" branch is taken exactly when none does. */
  lemma FreshLedgersNameUndersupplied(
    demand: real, materials: map<string, real>, inventory: map<string, real>, productionCapacity: map<string, real>)
    ensures var s := ShortagesRecorded(map[], Recorded(map[], demand, materials), inventory, productionCapacity);
            && (forall k :: k in s <==> k in materials && Supply(inventory, productionCapacity, k) < Requirement(demand, materials[k]))
            && (|s| == 0 <==> forall k :: k in materials ==> Requirement(demand, materials[k]) <= Supply(inventory, productionCapacity, k))
  {
    var s := ShortagesRecorded(map[], Recorded(map[], demand, materials), inventory, productionCapacity);
    if |s| != 0 {
      var k :| k in s;
      assert k in materials && Supply(inventory, productionCapacity, k) < Requirement(demand, materials[k]);
    }
  }

  /** Because the ledger is never cleared, a shortage recorded by an earlier
      call survives a call in which the same material is amply supplied. */
  lemma StaleShortageOutlivesRecovery(
    requirements: map<string, real>, shortage: map<string, real>, demand: real,
    materials: map<string, real>, inventory: map<string, real>, productionCapacity: map<string, real>, name: string)
    requires name in shortage && name in materials
    requires Requirement(demand, materials[name]) <= Supply(inventory, productionCapacity, name)
    ensures var s := ShortagesRecorded(shortage, Recorded(requirements, demand, materials), inventory, productionCapacity);
            name in s && s[name] == shortage[name]
  {
  }

  /** The requirement ledger once the materials named in `done` have been recorded. */
  function RecordedOn(prior: map<string, real>, demand: real, materials: map<string, real>, done: set<string>)
    : map<string, real>
  {
    prior + map k | k in materials && k in done :: Requirement(demand, materials[k])
  }

  /** Recording one more material of the call. */
  lemma RecordedOnStep(prior: map<string, real>, demand: real, materials: map<string, real>, done: set<string>, name: string)
    requires name in materials
    ensures RecordedOn(prior, demand, materials, done)[name := Requirement(demand, materials[name])]
            == RecordedOn(prior, demand, materials, done + {name})
  {
  }

  /** The shortage ledger once the names in `checked` have been checked. */
  function ShortagesOn(prior: map<string, real>, requirements: map<string, real>,
                       inventory: map<string, real>, productionCapacity: map<string, real>, checked: set<string>)
    : map<string, real>
  {
    prior + map k | k in checked && Short(requirements, inventory, productionCapacity, k)
                  :: Gap(requirements, inventory, productionCapacity, k)
  }

  /** Checking one more name that is under-supplied writes its shortage. */
  lemma ShortageWritten(prior: map<string, real>, requirements: map<string, real>,
                        inventory: map<string, real>, productionCapacity: map<string, real>, checked: set<string>, name: string)
    requires Short(requirements, inventory, productionCapacity, name)
    ensures ShortagesOn(prior, requirements, inventory, productionCapacity, checked)[name := Gap(requirements, inventory, productionCapacity, name)]
            == ShortagesOn(prior, requirements, inventory, productionCapacity, checked + {name})
  {
  }

  /** Checking one more name that is amply supplied writes nothing. */
  lemma ShortageSkipped(prior: map<string, real>, requirements: map<string, real>,
                        inventory: map<string, real>, productionCapacity: map<string, real>, checked: set<string>, name: string)
    requires !Short(requirements, inventory, productionCapacity, name)
    ensures ShortagesOn(prior, requirements, inventory, productionCapacity, checked)
            == ShortagesOn(prior, requirements, inventory, productionCapacity, checked + {name})
  {
  }

  /** The two ledgers of the calculator, updated in place by each call. */
  class RequirementLedger {
    var materialRequirements: map<string, real>
    var shortage: map<string, real>

    /** The ledgers as the program starts: both empty. */
    constructor ()
      ensures materialRequirements == map[] && shortage == map[]
    {
      materialRequirements := map[];
      shortage := map[];
    }

    /** calculate: records the requirement of each material of the call,
        then records a shortage for every under-supplied entry of the whole
        requirement ledger, stale ones included.  Reports whether the
        shortage ledger is empty, which selects the "enough supply" message.
        The caller's maps are values and are left as they were. */
    method Calculate(demand: real, materials: map<string, real>,
                     inventory: map<string, real>, productionCapacity: map<string, real>)
      returns (enoughSupply: bool)
      modifies this
      ensures materialRequirements == Recorded(old(materialRequirements), demand, materials)
      ensures shortage == ShortagesRecorded(old(shortage), materialRequirements, inventory, productionCapacity)
      ensures enoughSupply <==> |shortage| == 0
    {
      RecordRequirements(demand, materials);
      RecordShortages(inventory, productionCapacity);
      enoughSupply := |shortage| == 0;
    }
  
    /** The first loop of calculate: the requirement of each material of the call. */
    method RecordRequirements(demand: real, materials: map<string, real>)
      modifies this
      ensures materialRequirements == Recorded(old(materialRequirements), demand, materials)
      ensures shortage == old(shortage)
    {
      ghost var requirements0 := materialRequirements;
      var pending := materials.Keys;
      ghost var done: set<string> := {};
      while pending != {}
        invariant pending <= materials.Keys && done == materials.Keys - pending
        invariant materialRequirements == RecordedOn(requirements0, demand, materials, done)
        invariant shortage == old(shortage)
        decreases pending
      {
        var name :| name in pending;
        RecordedOnStep(requirements0, demand, materials, done, name);
        materialRequirements := materialRequirements[name := Requirement(demand, materials[name])];
        pending := pending - {name};
        done := done + {name};
      }
      assert done == materials.Keys;
    }

    /** The second loop of calculate: every entry of the requirement ledger
        is checked against the supply, and a shortage written when it falls short. */
    method RecordShortages(inventory: map<string, real>, productionCapacity: map<string, real>)
      modifies this
      ensures materialRequirements == old(materialRequirements)
      ensures shortage == ShortagesRecorded(old(shortage), materialRequirements, inventory, productionCapacity)
    {
      ghost var shortage0 := shortage;
      var unchecked := materialRequirements.Keys;
      ghost var checked: set<string> := {};
      while unchecked != {}
        invariant unchecked <= materialRequirements.Keys && checked == materialRequirements.Keys - unchecked
        invariant materialRequirements == old(materialRequirements)
        invariant shortage == ShortagesOn(shortage0, materialRequirements, inventory, productionCapacity, checked)
        decreases unchecked
      {
        var name :| name in unchecked;
        var availableSupply := ValueOr0(inventory, name) + ValueOr0(productionCapacity, name);
        if availableSupply < materialRequirements[name] {
          ShortageWritten(shortage0, materialRequirements, inventory, productionCapacity, checked, name);
          assert materialRequirements[name] - availableSupply == Gap(materialRequirements, inventory, productionCapacity, name);
          shortage := shortage[name := materialRequirements[name] - availableSupply];
        } else {
          ShortageSkipped(shortage0, materialRequirements, inventory, productionCapacity, checked, name);
        }
        unchecked := unchecked - {name};
        checked := checked + {name};
      }
      assert checked == materialRequirements.Keys;
    }
  }
}
