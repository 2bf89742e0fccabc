/**
  Alias resolution (`Container::getTrueId`): following `aliass` from an identifier to the
  identifier under which all state is stored, and what happens on a cycle.
 */
module Aliases {
  import opened Types

  /** The identifier reached from `x` after `n` alias steps; an identifier with no alias
      is where a chain ends, so stepping from it stays put. */
  function Follow(aliass: map<Id, Id>, x: Id, n: nat): Id
    decreases n
  {
    if n == 0 || x !in aliass then x else Follow(aliass, aliass[x], n - 1)
  }

  /** The recursion of `getTrueId($id, $from)`. `from` is the originating identifier
      (null on the outermost call). `seen` holds the identifiers this recursion has
      already stepped from: meeting one of them again (other than the origin, which the
      PHP checks first) means the PHP would repeat the same calls forever. */
  function Resolve(aliass: map<Id, Id>, id: Id, from: Option<Id>, seen: set<Id>): (r: Result<Id>)
    decreases aliass.Keys - seen
    ensures r.Success? ==> r.value !in aliass
    ensures r.Failure? ==> r.error == ContainerError(AliasLoop) || r.error == EndlessRecursion
  {
    if from == Some(id) then Failure(ContainerError(AliasLoop))
    else if id !in aliass then Success(id)
    else if id in seen then Failure(EndlessRecursion)
    else Resolve(aliass, aliass[id], Some(if from.Some? then from.value else id), seen + {id})
  }

  /** `getTrueId($id)`: the canonical identifier for `id`. */
  function GetTrueId(aliass: map<Id, Id>, id: Id): (r: Result<Id>)
    ensures id !in aliass ==> r == Success(id)
    ensures r.Success? ==> r.value !in aliass
    ensures r.Failure? ==> r.error == ContainerError(AliasLoop) || r.error == EndlessRecursion
  {
    Resolve(aliass, id, None, {})
  }

  /** The chain from `o` ends at `c`. */
  ghost predicate EndsAt(aliass: map<Id, Id>, o: Id, c: Id) {
    c !in aliass && exists n: nat :: Follow(aliass, o, n) == c
  }

  /** The chain from `o` comes back to `o` after at least one step. */
  ghost predicate ReturnsTo(aliass: map<Id, Id>, o: Id) {
    o in aliass && exists n: nat :: n >= 1 && Follow(aliass, o, n) == o
  }

  /** The chain from `o` never ends and never comes back to `o`: it runs into a cycle that
      does not pass through `o`. */
  ghost predicate Endless(aliass: map<Id, Id>, o: Id) {
    forall n: nat :: Follow(aliass, o, n) in aliass && (n >= 1 ==> Follow(aliass, o, n) != o)
  }

  /** The identifiers met in the first `k` steps from `o`. */
  ghost function Visited(aliass: map<Id, Id>, o: Id, k: nat): set<Id>
  {
    if k == 0 then {} else Visited(aliass, o, k - 1) + {Follow(aliass, o, k - 1)}
  }

  lemma {:induction false} FollowAdd(aliass: map<Id, Id>, x: Id, i: nat, j: nat)
    ensures Follow(aliass, x, i + j) == Follow(aliass, Follow(aliass, x, i), j)
    decreases i
  {
    if i != 0 && x in aliass {
      FollowAdd(aliass, aliass[x], i - 1, j);
    }
  }

  lemma {:induction false} VisitedWitness(aliass: map<Id, Id>, o: Id, k: nat, x: Id) returns (j: nat)
    requires x in Visited(aliass, o, k)
    ensures j < k && Follow(aliass, o, j) == x
    decreases k
  {
    if x == Follow(aliass, o, k - 1) {
      j := k - 1;
    } else {
      j := VisitedWitness(aliass, o, k - 1, x);
    }
  }

  /** Once the chain from `o` meets the same identifier at steps `j` and `j + p`, every
      later step repeats one of the steps `j .. j + p - 1`. */
  lemma {:induction false} FollowWindow(aliass: map<Id, Id>, o: Id, j: nat, p: nat, t: nat) returns (i: nat)
    requires p >= 1 && Follow(aliass, o, j + p) == Follow(aliass, o, j)
    ensures j <= i < j + p && Follow(aliass, o, j + t) == Follow(aliass, o, i)
    decreases t
  {
    if t < p {
      i := j + t;
    } else {
      FollowAdd(aliass, o, j + p, t - p);
      FollowAdd(aliass, o, j, t - p);
      assert j + p + (t - p) == j + t;
      i := FollowWindow(aliass, o, j, p, t - p);
    }
  }

  /** A chain that comes back to its start never reaches an identifier without an alias. */
  lemma CycleNeverEnds(aliass: map<Id, Id>, x: Id, p: nat, n: nat)
    requires x in aliass && p >= 1 && Follow(aliass, x, p) == x
    ensures Follow(aliass, x, n) in aliass
  {
    assert Follow(aliass, x, 0 + p) == Follow(aliass, x, 0);
    var i := FollowWindow(aliass, x, 0, p, n);
    FollowAdd(aliass, x, i, p - i);
    assert i + (p - i) == p;
  }

  /** Each outcome of the recursion, from step `k` of the chain from `o` on, is justified
      by the chain: a result ends it, an `AliasLoop` is a return to `o`, and
      `EndlessRecursion` is a cycle that avoids `o`. */
  lemma {:induction false} ResolveSound(aliass: map<Id, Id>, o: Id, k: nat, id: Id, seen: set<Id>)
    requires 1 <= k && id == Follow(aliass, o, k) && seen == Visited(aliass, o, k)
    requires forall j: nat :: j < k ==> Follow(aliass, o, j) in aliass
    requires forall j: nat :: 1 <= j < k ==> Follow(aliass, o, j) != o
    ensures var r := Resolve(aliass, id, Some(o), seen);
      && (r.Success? ==> EndsAt(aliass, o, r.value))
      && (r == Failure(ContainerError(AliasLoop)) ==> ReturnsTo(aliass, o))
      && (r == Failure(EndlessRecursion) ==> Endless(aliass, o))
    decreases aliass.Keys - seen
  {
    assert Follow(aliass, o, 0) in aliass;
    if id == o {
      assert ReturnsTo(aliass, o);
    } else if id !in aliass {
      assert EndsAt(aliass, o, id);
    } else if id in seen {
      var j := VisitedWitness(aliass, o, k, id);
      forall n: nat
        ensures Follow(aliass, o, n) in aliass && (n >= 1 ==> Follow(aliass, o, n) != o)
      {
        if n >= k {
          assert j + (k - j) == k;
          var i := FollowWindow(aliass, o, j, k - j, n - j);
          assert j + (n - j) == n;
        }
      }
    } else {
      FollowAdd(aliass, o, k, 1);
      assert Follow(aliass, id, 1) == aliass[id];
      assert Visited(aliass, o, k + 1) == seen + {id};
      ResolveSound(aliass, o, k + 1, aliass[id], seen + {id});
    }
  }

  lemma GetTrueIdSound(aliass: map<Id, Id>, o: Id)
    ensures var r := GetTrueId(aliass, o);
      && (r.Success? ==> EndsAt(aliass, o, r.value))
      && (r == Failure(ContainerError(AliasLoop)) ==> ReturnsTo(aliass, o))
      && (r == Failure(EndlessRecursion) ==> Endless(aliass, o))
  {
    assert Follow(aliass, o, 0) == o;
    if o in aliass {
      assert Follow(aliass, o, 1) == aliass[o];
      assert Visited(aliass, o, 1) == {o};
      ResolveSound(aliass, o, 1, aliass[o], {o});
    }
  }

  /** A chain ends in at most one place. */
  lemma EndUnique(aliass: map<Id, Id>, o: Id, c: Id, d: Id)
    requires EndsAt(aliass, o, c) && EndsAt(aliass, o, d)
    ensures c == d
  {
    var n: nat :| Follow(aliass, o, n) == c;
    var m: nat :| Follow(aliass, o, m) == d;
    if n <= m {
      FollowAdd(aliass, o, n, m - n);
      assert n + (m - n) == m;
    } else {
      FollowAdd(aliass, o, m, n - m);
      assert m + (n - m) == n;
    }
  }

  /** `getTrueId` is exactly alias-chain following: it returns the end of the chain when
      there is one, throws the "alias endless loop" exception when the chain comes back to
      the identifier it started from (a self-alias `A => A` included), and recurses
      forever when the chain runs into a cycle elsewhere. */
  lemma {:induction false} GetTrueIdCharacterized(aliass: map<Id, Id>, o: Id, c: Id)
    ensures GetTrueId(aliass, o) == Success(c) <==> EndsAt(aliass, o, c)
    ensures GetTrueId(aliass, o) == Failure(ContainerError(AliasLoop)) <==> ReturnsTo(aliass, o)
    ensures GetTrueId(aliass, o) == Failure(EndlessRecursion) <==> Endless(aliass, o)
  {
    GetTrueIdSound(aliass, o);
    var r := GetTrueId(aliass, o);
    if EndsAt(aliass, o, c) {
      var n: nat :| Follow(aliass, o, n) == c;
      if ReturnsTo(aliass, o) {
        var p: nat :| p >= 1 && Follow(aliass, o, p) == o;
        CycleNeverEnds(aliass, o, p, n);
      }
      assert !Endless(aliass, o);
      if r.Success? {
        EndUnique(aliass, o, c, r.value);
      }
    }
    if ReturnsTo(aliass, o) {
      var p: nat :| p >= 1 && Follow(aliass, o, p) == o;
      assert !Endless(aliass, o);
      if r.Success? {
        var n: nat :| Follow(aliass, o, n) == r.value;
        CycleNeverEnds(aliass, o, p, n);
      }
    }
  }

  /** Aliases are transitive: an aliased identifier resolves to `c` exactly when its alias
      target does (so `A => B`, `B => C` sends `A` to `C`). */
  lemma AliasTransitive(aliass: map<Id, Id>, o: Id, c: Id)
    requires o in aliass
    ensures GetTrueId(aliass, o) == Success(c) <==> GetTrueId(aliass, aliass[o]) == Success(c)
  {
    GetTrueIdCharacterized(aliass, o, c);
    GetTrueIdCharacterized(aliass, aliass[o], c);
    if EndsAt(aliass, o, c) {
      var n: nat :| Follow(aliass, o, n) == c;
      assert n >= 1;
      assert Follow(aliass, aliass[o], n - 1) == c;
    }
    if EndsAt(aliass, aliass[o], c) {
      var n: nat :| Follow(aliass, aliass[o], n) == c;
      assert Follow(aliass, o, n + 1) == c;
    }
  }

  /** A self-alias `A => A` is reported as an alias loop. */
  lemma SelfAliasLoops(aliass: map<Id, Id>, o: Id)
    requires o in aliass && aliass[o] == o
    ensures GetTrueId(aliass, o) == Failure(ContainerError(AliasLoop))
  {
    assert Follow(aliass, o, 1) == o;
    GetTrueIdCharacterized(aliass, o, o);
  }

  /** Two identifiers aliased to each other are both reported as alias loops. */
  lemma TwoCycleLoops(aliass: map<Id, Id>, a: Id, b: Id)
    requires a in aliass && b in aliass && aliass[a] == b && aliass[b] == a
    ensures GetTrueId(aliass, a) == Failure(ContainerError(AliasLoop))
    ensures GetTrueId(aliass, b) == Failure(ContainerError(AliasLoop))
  {
    assert Follow(aliass, a, 1) == b && Follow(aliass, a, 2) == a;
    assert Follow(aliass, b, 1) == a && Follow(aliass, b, 2) == b;
    GetTrueIdCharacterized(aliass, a, a);
    GetTrueIdCharacterized(aliass, b, b);
  }
}
