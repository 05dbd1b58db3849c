/** Small vocabulary shared by the models: optional values and counting in sequences. */
module Prelude {
  datatype Option<+T> = None | Some(value: T) {
    function GetOr(default: T): T {
      if Some? then value else default
    }

    function OrElse(other: Option<T>): Option<T> {
      if Some? then this else other
    }
  }

  function ToSeq<T>(o: Option<seq<T>>): seq<T> {
    if o.Some? then o.value else []
  }

  function Bit(b: bool): nat {
    if b then 1 else 0
  }

  /** How often x occurs in s. */
  function Occurs<T(==)>(s: seq<T>, x: T): nat {
    if s == [] then 0 else Bit(s[0] == x) + Occurs(s[1..], x)
  }

  lemma {:induction false} OccursConcat<T>(a: seq<T>, b: seq<T>, x: T)
    ensures Occurs(a + b, x) == Occurs(a, x) + Occurs(b, x)
  {
    if a == [] {
      assert a + b == b;
    } else {
      OccursConcat(a[1..], b, x);
      assert (a + b)[1..] == a[1..] + b;
    }
  }

  lemma OccursAppend<T>(a: seq<T>, y: T, x: T)
    ensures Occurs(a + [y], x) == Occurs(a, x) + Bit(x == y)
  {
    OccursConcat(a, [y], x);
    assert Occurs([y], x) == Bit(y == x) + Occurs([y][1..], x);
  }

  lemma {:induction false} OccursMember<T>(a: seq<T>, x: T)
    ensures (x in a) <==> Occurs(a, x) > 0
  {
    if a != [] {
      OccursMember(a[1..], x);
      assert a == [a[0]] + a[1..];
    }
  }

  lemma CardAdd<T>(a: set<T>, x: T)
    requires x !in a
    ensures |a + {x}| == |a| + 1
  {
  }

  lemma CardRemove<T>(a: set<T>, x: T)
    requires x in a
    ensures |a - {x}| == |a| - 1
  {
  }

  lemma {:induction false} CardSubset<T>(a: set<T>, b: set<T>)
    requires a <= b
    ensures |a| <= |b|
    decreases a
  {
    if x :| x in a {
      CardSubset(a - {x}, b - {x});
    }
  }
}
