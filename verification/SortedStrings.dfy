/**
  `java.util.TreeSet<String>` as the resource accessor uses it: a set of names
  kept in ascending order, filled in place with `addAll` and tested with
  `isEmpty`.
 */
module SortedStrings {

  /** The natural order of strings (`String.compareTo`): lexicographic by
      character, a proper prefix coming first. */
  predicate Below(a: string, b: string)
    decreases |a|
  {
    if |a| == 0 then |b| > 0
    else |b| > 0 && (a[0] < b[0] || (a[0] == b[0] && Below(a[1..], b[1..])))
  }

  lemma {:induction false} BelowIrreflexive(a: string)
    ensures !Below(a, a)
    decreases |a|
  {
    if |a| > 0 {
      BelowIrreflexive(a[1..]);
    }
  }

  lemma {:induction false} BelowTransitive(a: string, b: string, c: string)
    requires Below(a, b) && Below(b, c)
    ensures Below(a, c)
    decreases |a|
  {
    if |a| > 0 && a[0] == b[0] && b[0] == c[0] {
      BelowTransitive(a[1..], b[1..], c[1..]);
    }
  }

  lemma {:induction false} BelowTotal(a: string, b: string)
    ensures a == b || Below(a, b) || Below(b, a)
    decreases |a|
  {
    if |a| > 0 && |b| > 0 && a[0] == b[0] {
      BelowTotal(a[1..], b[1..]);
      if a[1..] == b[1..] {
        assert a == [a[0]] + a[1..] && b == [b[0]] + b[1..];
      }
    }
  }

  /** Strictly ascending, hence also free of duplicates. */
  ghost predicate StrictlySorted(s: seq<string>) {
    forall i, j :: 0 <= i < j < |s| ==> Below(s[i], s[j])
  }

  /** Putting `x` where everything before it is below it and everything
      after it above it keeps the sequence strictly ascending, and adds
      exactly `x`. */
  lemma InsertKeepsOrder(s: seq<string>, i: nat, x: string)
    requires i <= |s| && StrictlySorted(s)
    requires forall j :: 0 <= j < i ==> Below(s[j], x)
    requires forall j :: i <= j < |s| ==> Below(x, s[j])
    ensures StrictlySorted(s[..i] + [x] + s[i..])
    ensures forall y :: y in s[..i] + [x] + s[i..] <==> y in s || y == x
  {
    var t := s[..i] + [x] + s[i..];
    assert |t| == |s| + 1;
    forall a, b | 0 <= a < b < |t|
      ensures Below(t[a], t[b])
    {
      if b < i {
        assert t[a] == s[a] && t[b] == s[b];
      } else if b == i {
        assert t[a] == s[a] && t[b] == x;
      } else if a < i {
        assert t[a] == s[a] && t[b] == s[b - 1];
      } else if a == i {
        assert t[a] == x && t[b] == s[b - 1];
      } else {
        assert t[a] == s[a - 1] && t[b] == s[b - 1];
      }
    }
    assert s == s[..i] + s[i..];
  }

  class TreeSet {
    /** The elements in iteration order. */
    var elements: seq<string>

    ghost predicate Valid()
      reads this
    {
      StrictlySorted(elements)
    }

    /** The set this object stands for. */
    function Contents(): set<string>
      reads this
    {
      set x | x in elements
    }

    constructor ()
      ensures Valid() && elements == []
    {
      elements := [];
    }

    /** `add`: inserts `x` at its place in the order, unless it is present. */
    method Add(x: string)
      requires Valid()
      modifies this
      ensures Valid()
      ensures Contents() == old(Contents()) + {x}
    {
      var i := 0;
      while i < |elements| && Below(elements[i], x)
        invariant 0 <= i <= |elements|
        invariant forall j :: 0 <= j < i ==> Below(elements[j], x)
      {
        i := i + 1;
      }
      if i < |elements| && elements[i] == x {
        return;
      }
      if i < |elements| {
        BelowTotal(elements[i], x);
        forall j | i < j < |elements|
          ensures Below(x, elements[j])
        {
          BelowTransitive(x, elements[i], elements[j]);
        }
      }
      InsertKeepsOrder(elements, i, x);
      elements := elements[..i] + [x] + elements[i..];
    }

    /** `addAll`: adds every element of `xs`. */
    method AddAll(xs: set<string>)
      requires Valid()
      modifies this
      ensures Valid()
      ensures Contents() == old(Contents()) + xs
    {
      var rest := xs;
      while rest != {}
        invariant rest <= xs
        invariant Valid()
        invariant Contents() == old(Contents()) + (xs - rest)
        decreases rest
      {
        var x :| x in rest;
        Add(x);
        rest := rest - {x};
      }
    }

    /** `isEmpty`. */
    function IsEmpty(): (empty: bool)
      reads this
      ensures empty <==> Contents() == {}
    {
      if |elements| == 0 then true
      else assert elements[0] in Contents(); false
    }
  }
}
