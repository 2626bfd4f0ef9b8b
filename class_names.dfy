/** Driver identity: a driver's shorthand is the last '_'-separated
    segment of its class name (System_Daemon_OS_Ubuntu -> Ubuntu). */
module ClassNames {
  import opened Outcomes

  /** The argument of _getShortHand is a PHP mixed value. */
  datatype PhpValue = PhpString(s: string) | PhpNonString

  /** explode("_", s): the maximal '_'-free pieces of s, in order. */
  function Explode(s: string): (parts: seq<string>)
    ensures |parts| >= 1
    ensures forall i :: 0 <= i < |parts| ==> '_' !in parts[i]
  {
    if s == [] then [[]]
    else
      var rest := Explode(s[1..]);
      if s[0] == '_' then [[]] + rest
      else [[s[0]] + rest[0]] + rest[1..]
  }

  /** implode("_", parts), the inverse of Explode. */
  function Implode(parts: seq<string>): string
    requires |parts| >= 1
  {
    if |parts| == 1 then parts[0] else parts[0] + "_" + Implode(parts[1..])
  }

  /** Joining the pieces again gives back the class name. */
  lemma {:induction false} ImplodeExplode(s: string)
    ensures Implode(Explode(s)) == s
  {
    if s != [] {
      ImplodeExplode(s[1..]);
      var rest := Explode(s[1..]);
      if s[0] != '_' {
        if |rest| == 1 {
          assert Implode(Explode(s)) == [s[0]] + rest[0];
        } else {
          assert Implode(rest[1..]) + [] == Implode(rest[1..]);
          assert Implode(Explode(s)) == [s[0]] + rest[0] + "_" + Implode(rest[1..]);
        }
      }
      assert s == [s[0]] + s[1..];
    }
  }

  /** Splitting a join of '_'-free pieces gives back the same pieces. */
  lemma {:induction false} ExplodeImplode(parts: seq<string>)
    requires |parts| >= 1
    requires forall i :: 0 <= i < |parts| ==> '_' !in parts[i]
    ensures Explode(Implode(parts)) == parts
  {
    if |parts| == 1 {
      ExplodeNoSeparator(parts[0]);
    } else {
      ExplodeImplode(parts[1..]);
      ExplodeConcat(parts[0], Implode(parts[1..]));
      assert [parts[0]] + parts[1..] == parts;
    }
  }

  lemma {:induction false} ExplodeNoSeparator(s: string)
    requires '_' !in s
    ensures Explode(s) == [s]
  {
    if s != [] {
      assert '_' !in s[1..] by {
        forall c | c in s[1..] ensures c in s { }
      }
      ExplodeNoSeparator(s[1..]);
      assert [s[0]] + s[1..] == s;
    }
  }

  lemma {:induction false} ExplodeConcat(a: string, b: string)
    requires '_' !in a
    ensures Explode(a + "_" + b) == [a] + Explode(b)
  {
    if a == [] {
      assert a + "_" + b == "_" + b;
      assert ("_" + b)[1..] == b;
    } else {
      assert (a + "_" + b)[1..] == a[1..] + "_" + b;
      assert '_' !in a[1..] by {
        forall c | c in a[1..] ensures c in a { }
      }
      ExplodeConcat(a[1..], b);
      assert [a[0]] + a[1..] == a;
    }
  }

  /** end(explode("_", s)) */
  function LastSegment(s: string): string {
    var parts := Explode(s);
    parts[|parts| - 1]
  }

  /** The last segment is the suffix after the last '_' (all of s when
      there is none): it has no '_', and it is preceded by '_' or is
      all of s. */
  lemma {:induction false} LastSegmentIsSuffix(s: string)
    ensures var t := LastSegment(s);
      |t| <= |s| && t == s[|s| - |t|..] && '_' !in t &&
      (|t| == |s| || s[|s| - |t| - 1] == '_')
  {
    if s != [] {
      LastSegmentIsSuffix(s[1..]);
      var rest := Explode(s[1..]);
      var t := LastSegment(s[1..]);
      if s[0] == '_' {
        assert LastSegment(s) == t;
      } else if |rest| == 1 {
        ImplodeExplode(s[1..]);
        assert t == s[1..];
        assert LastSegment(s) == [s[0]] + t == s;
      } else {
        assert LastSegment(s) == t;
        if |t| == |s| - 1 {
          assert t == s[1..];
          ExplodeNoSeparator(s[1..]);
        }
        assert s[1..][|s| - 1 - |t| - 1] == s[|s| - |t| - 1];
      }
    }
  }

  /** Conversely, a '_'-free suffix that is all of s or follows a '_' is
      the last segment. */
  lemma LastSegmentUnique(s: string, t: string)
    requires |t| <= |s| && t == s[|s| - |t|..] && '_' !in t
    requires |t| == |s| || s[|s| - |t| - 1] == '_'
    ensures LastSegment(s) == t
  {
    LastSegmentIsSuffix(s);
    var u := LastSegment(s);
    if |u| < |t| {
      assert false;
    } else if |t| < |u| {
      assert false;
    }
  }

  /** _getShortHand: false (None) for a non-string or a PHP-falsy string
      ("" or "0"), otherwise the last '_' segment of the class name. */
  function ShortHand(v: PhpValue): (r: Option<string>)
    ensures r.None? <==> (v.PhpNonString? || Falsy(v.s))
  {
    match v
    case PhpNonString => None
    case PhpString(s) => if Falsy(s) then None else Some(LastSegment(s))
  }

  /** What _getShortHand returns, described without explode. */
  lemma ShortHandIsLastSegment(s: string)
    requires !Falsy(s)
    ensures var r := ShortHand(PhpString(s));
      r.Some? && |r.value| <= |s| && r.value == s[|s| - |r.value|..] && '_' !in r.value &&
      (r.value == s || s[|s| - |r.value| - 1] == '_')
  {
    LastSegmentIsSuffix(s);
  }

  /** The example from the source's doc comment. */
  lemma ShortHandUbuntu()
    ensures ShortHand(PhpString("System_Daemon_OS_Ubuntu")) == Some("Ubuntu")
  {
    var s := "System_Daemon_OS_Ubuntu";
    assert s[|s| - 6..] == "Ubuntu";
    LastSegmentUnique(s, "Ubuntu");
  }
}
