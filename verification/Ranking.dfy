/** `ORDER BY position,id` over a finite set of rows: the sorted listing exists, is unique, and
    depends only on the relative order of the rows. Rows are numbered, positions are reals. */
module Ranking {

  predicate Before(pos: map<nat, real>, a: nat, b: nat)
    requires a in pos && b in pos
  {
    pos[a] < pos[b] || (pos[a] == pos[b] && a < b)
  }

  predicate Sorted(o: seq<nat>, pos: map<nat, real>)
    requires forall x | x in o :: x in pos
  {
    forall i, j | 0 <= i < j < |o| :: Before(pos, o[i], o[j])
  }

  ghost function Elements(o: seq<nat>): set<nat> {
    set x | x in o
  }

  ghost predicate IsLeast(S: set<nat>, pos: map<nat, real>, m: nat)
    requires S <= pos.Keys
  {
    m in S && forall x | x in S && x != m :: Before(pos, m, x)
  }

  lemma {:induction false} LeastExists(S: set<nat>, pos: map<nat, real>) returns (m: nat)
    requires S != {} && S <= pos.Keys
    ensures IsLeast(S, pos, m)
    decreases |S|
  {
    var a :| a in S;
    if S == {a} {
      m := a;
    } else {
      m := LeastExists(S - {a}, pos);
      forall x | x in S && x != a && x != m ensures Before(pos, m, x) { assert x in S - {a}; }
      if Before(pos, a, m) { m := a; }
    }
  }

  /** The first row of a nonempty set: `ORDER BY position LIMIT 1`. */
  function Least(S: set<nat>, pos: map<nat, real>): (m: nat)
    requires S != {} && S <= pos.Keys
    ensures IsLeast(S, pos, m)
  {
    assert exists m :: IsLeast(S, pos, m) by { var m := LeastExists(S, pos); }
    var m :| m in S && forall x | x in S && x != m :: Before(pos, m, x);
    m
  }

  /** All rows of the set in order. */
  function Ordered(S: set<nat>, pos: map<nat, real>): (o: seq<nat>)
    requires S <= pos.Keys
    ensures forall x :: x in o <==> x in S
    ensures forall i | 0 <= i < |o| :: o[i] in S
    ensures |o| == |S|
    ensures Sorted(o, pos)
  {
    if S == {} then []
    else
      var m := Least(S, pos);
      [m] + Ordered(S - {m}, pos)
  }

  lemma SortedTail(o: seq<nat>, pos: map<nat, real>)
    requires o != [] && (forall x | x in o :: x in pos) && Sorted(o, pos)
    ensures Sorted(o[1..], pos) && Elements(o[1..]) == Elements(o) - {o[0]}
    ensures IsLeast(Elements(o), pos, o[0])
  {
    var rest := o[1..];
    forall i, j | 0 <= i < j < |rest| ensures Before(pos, rest[i], rest[j]) { assert Before(pos, o[i + 1], o[j + 1]); }
    forall i | 0 <= i < |rest| ensures Before(pos, o[0], rest[i]) { assert Before(pos, o[0], o[i + 1]); }
    forall x ensures x in rest <==> x in Elements(o) && x != o[0] { assert o == [o[0]] + rest; }
  }

  lemma {:induction false} SortedSame(o: seq<nat>, o': seq<nat>, pos: map<nat, real>)
    requires (forall x | x in o :: x in pos) && (forall x | x in o' :: x in pos)
    requires Elements(o) == Elements(o') && Sorted(o, pos) && Sorted(o', pos)
    ensures o == o'
    decreases |o|
  {
    if o == [] {
      assert forall i | 0 <= i < |o'| :: o'[i] in Elements(o');
    } else {
      assert o[0] in Elements(o') && o' != [];
      SortedTail(o, pos);
      SortedTail(o', pos);
      assert o[0] == o'[0];
      SortedSame(o[1..], o'[1..], pos);
      assert o == [o[0]] + o[1..] && o' == [o'[0]] + o'[1..];
    }
  }

  lemma OrderedUnique(o: seq<nat>, S: set<nat>, pos: map<nat, real>)
    requires S <= pos.Keys && Elements(o) == S && Sorted(o, pos)
    ensures o == Ordered(S, pos)
  {
    assert Elements(Ordered(S, pos)) == S;
    SortedSame(o, Ordered(S, pos), pos);
  }

  ghost predicate SameOrder(S: set<nat>, pos: map<nat, real>, pos': map<nat, real>)
    requires S <= pos.Keys && S <= pos'.Keys
  {
    forall a, b | a in S && b in S :: Before(pos, a, b) <==> Before(pos', a, b)
  }

  /** Two position maps that rank the rows alike give the same listing. */
  lemma SameOrderSameListing(S: set<nat>, pos: map<nat, real>, pos': map<nat, real>)
    requires S <= pos.Keys && S <= pos'.Keys && SameOrder(S, pos, pos')
    ensures Ordered(S, pos) == Ordered(S, pos')
  {
    var o := Ordered(S, pos);
    assert Elements(o) == S;
    forall i, j | 0 <= i < j < |o| ensures Before(pos', o[i], o[j]) {
      assert Before(pos, o[i], o[j]);
    }
    OrderedUnique(o, S, pos');
  }

  lemma OrderedDistinct(S: set<nat>, pos: map<nat, real>, i: nat, j: nat)
    requires S <= pos.Keys && i < |S| && j < |S|
    ensures Ordered(S, pos)[i] == Ordered(S, pos)[j] ==> i == j
  {
    var o := Ordered(S, pos);
    if i < j { assert Before(pos, o[i], o[j]); }
    if j < i { assert Before(pos, o[j], o[i]); }
  }
}
