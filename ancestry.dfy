/** The driver class hierarchy (System_Daemon_OS at the root, e.g.
    Ubuntu extends Debian extends Linux extends OS), the ancestor chain
    of a class, its specificity weight, the details record a driver
    builds in its constructor, and the choice of the most specific
    candidate. PHP reflection (get_parent_class) is replaced by an
    explicit parent map. */
module Ancestry {
  import opened Outcomes
  import opened ClassNames

  /** parent: the declared parent class of each class that has one.
      level: every declared class with a rank that strictly decreases
      from a class to its parent, so the parent chain is acyclic. */
  datatype Hierarchy = Hierarchy(parent: map<ClassName, ClassName>, level: map<ClassName, nat>)

  predicate Valid(h: Hierarchy) {
    forall c :: c in h.parent ==>
      c in h.level && h.parent[c] in h.level && h.level[h.parent[c]] < h.level[c]
  }

  /** Whether class_exists(c) holds. */
  predicate Declared(h: Hierarchy, c: ClassName) {
    c in h.level
  }

  function Rank(h: Hierarchy, c: ClassName): nat {
    if c in h.level then h.level[c] else 0
  }

  /** The parent chain of c, direct parent first, root last. */
  function Ancestors(h: Hierarchy, c: ClassName): seq<ClassName>
    requires Valid(h)
    decreases Rank(h, c)
  {
    if c in h.parent then [h.parent[c]] + Ancestors(h, h.parent[c]) else []
  }

  /** _getAncestors: walks get_parent_class until there is no parent. */
  method GetAncestors(h: Hierarchy, c: ClassName) returns (classes: seq<ClassName>)
    requires Valid(h)
    ensures classes == Ancestors(h, c)
  {
    classes := [];
    var current := c;
    while current in h.parent
      invariant classes + Ancestors(h, current) == Ancestors(h, c)
      decreases Rank(h, current)
    {
      var next := h.parent[current];
      assert Ancestors(h, current) == [next] + Ancestors(h, next);
      assert classes + Ancestors(h, current) == (classes + [next]) + Ancestors(h, next);
      classes := classes + [next];
      current := next;
    }
    assert Ancestors(h, current) == [];
    assert classes + [] == classes;
  }

  /** _getAncestorCount: the specificity weight of a class. */
  function AncestorCount(h: Hierarchy, c: ClassName): (n: nat)
    requires Valid(h)
    ensures n == 0 <==> c !in h.parent
    ensures n <= Rank(h, c)
  {
    AncestorsChain(h, c);
    |Ancestors(h, c)|
  }

  /** The chain walks parent links: its first entry is c's parent, each
      entry's parent is the next one, and the last has no parent. Its
      length is bounded by c's rank, and a subclass's count is its
      parent's count plus one. */
  lemma {:induction false} AncestorsChain(h: Hierarchy, c: ClassName)
    requires Valid(h)
    ensures var a := Ancestors(h, c);
      (|a| == 0 <==> c !in h.parent) &&
      (|a| > 0 ==> a[0] == h.parent[c] && a[|a| - 1] !in h.parent) &&
      (forall i :: 0 <= i < |a| - 1 ==> a[i] in h.parent && h.parent[a[i]] == a[i + 1]) &&
      (forall i :: 0 <= i < |a| ==> a[i] in h.level) &&
      |a| <= Rank(h, c) &&
      (c in h.parent ==> |a| == |Ancestors(h, h.parent[c])| + 1)
    decreases Rank(h, c)
  {
    if c in h.parent {
      var p := h.parent[c];
      AncestorsChain(h, p);
      var a := Ancestors(h, c);
      assert a == [p] + Ancestors(h, p);
      forall i | 0 <= i < |a| - 1
        ensures a[i] in h.parent && h.parent[a[i]] == a[i + 1]
      {
        if i > 0 {
          assert a[i] == Ancestors(h, p)[i - 1];
        }
      }
    }
  }

  /** _osDetails: the driver's own shorthand and its shorthanded
      ancestors (PHP associative keys "shorthand" and "ancestors"). */
  datatype OsDetails = OsDetails(shorthand: Option<string>, ancestors: seq<Option<string>>)

  /** What the constructor stores for an object of class c. */
  function DetailsOf(h: Hierarchy, c: ClassName): (d: OsDetails)
    requires Valid(h)
    ensures d.shorthand == ShortHand(PhpString(c))
    ensures |d.ancestors| == AncestorCount(h, c)
    ensures forall i :: 0 <= i < |d.ancestors| ==> d.ancestors[i] == ShortHand(PhpString(Ancestors(h, c)[i]))
  {
    var a := Ancestors(h, c);
    OsDetails(ShortHand(PhpString(c)), seq(|a|, i requires 0 <= i < |a| => ShortHand(PhpString(a[i]))))
  }

  /** The ancestors detail of a subclass is its parent's shorthand
      followed by the parent's own ancestors detail, so its length is the
      ancestor count. */
  lemma DetailsOfSubclass(h: Hierarchy, c: ClassName)
    requires Valid(h)
    ensures |DetailsOf(h, c).ancestors| == AncestorCount(h, c)
    ensures c in h.parent ==>
      DetailsOf(h, c).ancestors ==
        [DetailsOf(h, h.parent[c]).shorthand] + DetailsOf(h, h.parent[c]).ancestors
    ensures c !in h.parent ==> DetailsOf(h, c).ancestors == []
  {
    if c in h.parent {
      var p := h.parent[c];
      var d, dp := DetailsOf(h, c), DetailsOf(h, p);
      assert Ancestors(h, c) == [p] + Ancestors(h, p);
      assert d.ancestors == [dp.shorthand] + dp.ancestors by {
        forall i | 0 <= i < |d.ancestors|
          ensures d.ancestors[i] == ([dp.shorthand] + dp.ancestors)[i]
        {
          if i > 0 {
            assert Ancestors(h, c)[i] == Ancestors(h, p)[i - 1];
          }
        }
      }
    }
  }

  /** _mostSpecific: the candidate with the greatest weight, or none for
      no candidate (PHP: reset() of an empty key list is false). Among
      equal weights the earliest candidate is kept. */
  function MostSpecific(h: Hierarchy, candidates: seq<ClassName>): (r: Option<ClassName>)
    requires Valid(h)
    ensures r.None? <==> candidates == []
    ensures r.Some? ==> r.value in candidates
    ensures r.Some? ==> forall c :: c in candidates ==> AncestorCount(h, c) <= AncestorCount(h, r.value)
  {
    if candidates == [] then None
    else
      match MostSpecific(h, candidates[1..])
      case None => Some(candidates[0])
      case Some(best) =>
        if AncestorCount(h, best) > AncestorCount(h, candidates[0]) then Some(best)
        else Some(candidates[0])
  }
}
