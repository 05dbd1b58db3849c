/**
 ConfigCell: a configuration value that remembers its source and refuses lower-ranked ones
 (src/Elastic.OpenTelemetry.Core/Configuration/ConfigCell.cs,
 src/Elastic.OpenTelemetry.Core/Configuration/ConfigSource.cs).  Assign and Snapshot run under the
 cell's lock, so concurrent callers see some sequence of assignments.
 */
module ConfigCells {
  import opened Prelude

  datatype ConfigSource = Default | IConfiguration | Environment | Options | Property | CentralConfig

  function Rank(s: ConfigSource): nat {
    match s
    case Default => 0
    case IConfiguration => 1
    case Environment => 2
    case Options => 3
    case Property => 4
    case CentralConfig => 5
  }

  /** What a cell holds, and equally what one assignment offers. */
  datatype Sourced<T> = Sourced(value: T, source: ConfigSource)

  function Apply<T>(cell: Sourced<T>, a: Sourced<T>): Sourced<T> {
    if Rank(a.source) < Rank(cell.source) then cell else a
  }

  class ConfigCell<T> {
    const key: string
    var value: T
    var source: ConfigSource

    function State(): Sourced<T>
      reads this
    {
      Sourced(value, source)
    }

    constructor (key: string, value: T)
      ensures this.key == key && State() == Sourced(value, Default)
    {
      this.key := key;
      this.value := value;
      source := Default;
    }

    method Assign(newValue: T, newSource: ConfigSource)
      modifies this
      ensures State() == Apply(old(State()), Sourced(newValue, newSource))
    {
      if Rank(newSource) < Rank(source) {
        return;
      }
      value := newValue;
      source := newSource;
    }

    method AssignFromEnvironmentVariable(newValue: T)
      modifies this
      ensures State() == Apply(old(State()), Sourced(newValue, Environment))
    {
      Assign(newValue, Environment);
    }

    method AssignFromConfiguration(newValue: T)
      modifies this
      ensures State() == Apply(old(State()), Sourced(newValue, IConfiguration))
    {
      Assign(newValue, IConfiguration);
    }

    method AssignFromOptions(newValue: T)
      modifies this
      ensures State() == Apply(old(State()), Sourced(newValue, Options))
    {
      Assign(newValue, Options);
    }

    method AssignFromProperty(newValue: T)
      modifies this
      ensures State() == Apply(old(State()), Sourced(newValue, Property))
    {
      Assign(newValue, Property);
    }

    method AssignFromCentralConfig(newValue: T)
      modifies this
      ensures State() == Apply(old(State()), Sourced(newValue, CentralConfig))
    {
      Assign(newValue, CentralConfig);
    }

    method Snapshot() returns (state: Sourced<T>)
      ensures state == State()
    {
      state := Sourced(value, source);
    }
  }

  // ---------------------------------------------------------------- sequences of assignments

  /** A cell after a sequence of assignments, starting from its default. */
  function After<T>(initial: T, assignments: seq<Sourced<T>>): Sourced<T> {
    if assignments == [] then Sourced(initial, Default)
    else Apply(After(initial, assignments[..|assignments| - 1]), assignments[|assignments| - 1])
  }

  /** The last value that a source assigned. */
  function LastOf<T>(assignments: seq<Sourced<T>>, source: ConfigSource): Option<T> {
    if assignments == [] then None
    else
      var last := assignments[|assignments| - 1];
      if last.source == source then Some(last.value) else LastOf(assignments[..|assignments| - 1], source)
  }

  function From<T>(source: ConfigSource, value: Option<T>): Option<Sourced<T>> {
    if value.Some? then Some(Sourced(value.value, source)) else None
  }

  /** The simple rule: the last word of the highest source that has spoken. */
  function Precedence<T>(initial: T, assignments: seq<Sourced<T>>): Sourced<T> {
    From(CentralConfig, LastOf(assignments, CentralConfig))
    .OrElse(From(Property, LastOf(assignments, Property)))
    .OrElse(From(Options, LastOf(assignments, Options)))
    .OrElse(From(Environment, LastOf(assignments, Environment)))
    .OrElse(From(IConfiguration, LastOf(assignments, IConfiguration)))
    .OrElse(From(Default, LastOf(assignments, Default)))
    .GetOr(Sourced(initial, Default))
  }

  lemma {:induction false} SnapshotIsPrecedence<T>(initial: T, assignments: seq<Sourced<T>>)
    ensures After(initial, assignments) == Precedence(initial, assignments)
  {
    if assignments != [] {
      SnapshotIsPrecedence(initial, assignments[..|assignments| - 1]);
    }
  }

  /** The same rule by position: the value comes from an assignment of the highest source present, and
      no later assignment has that source. */
  lemma {:induction false} SnapshotIsLastOfHighest<T>(initial: T, assignments: seq<Sourced<T>>) returns (i: nat)
    requires assignments != []
    ensures i < |assignments| && After(initial, assignments) == assignments[i]
    ensures forall j | 0 <= j < |assignments| :: Rank(assignments[j].source) <= Rank(assignments[i].source)
    ensures forall j | i < j < |assignments| :: Rank(assignments[j].source) < Rank(assignments[i].source)
  {
    var n := |assignments| - 1;
    var front := assignments[..n];
    i := n;
    if front != [] {
      var k := SnapshotIsLastOfHighest(initial, front);
      if Rank(assignments[n].source) < Rank(front[k].source) {
        i := k;
      }
    }
  }

  /** One source's assignments, in their own order. */
  function Only<T>(assignments: seq<Sourced<T>>, source: ConfigSource): seq<T> {
    if assignments == [] then []
    else
      var n := |assignments| - 1;
      Only(assignments[..n], source) + (if assignments[n].source == source then [assignments[n].value] else [])
  }

  lemma {:induction false} LastOfOnly<T>(assignments: seq<Sourced<T>>, source: ConfigSource)
    ensures var mine := Only(assignments, source);
      LastOf(assignments, source) == if mine == [] then None else Some(mine[|mine| - 1])
  {
    if assignments != [] {
      LastOfOnly(assignments[..|assignments| - 1], source);
    }
  }

  /** The interleaving of different sources is irrelevant. */
  lemma InterleavingIsIrrelevant<T>(initial: T, a: seq<Sourced<T>>, b: seq<Sourced<T>>)
    requires forall source :: Only(a, source) == Only(b, source)
    ensures After(initial, a) == After(initial, b)
  {
    forall source ensures LastOf(a, source) == LastOf(b, source) {
      assert Only(a, source) == Only(b, source);
      LastOfOnly(a, source);
      LastOfOnly(b, source);
    }
    SnapshotIsPrecedence(initial, a);
    SnapshotIsPrecedence(initial, b);
  }
}
