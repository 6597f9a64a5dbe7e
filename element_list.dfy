/**
 * The two Swift collection operations the settings manager relies on when it
 * turns the selected overlay elements into text: enumerating a `Set<String>`
 * (as `Array(set)` and `for`-in do, in an order Swift leaves unspecified) and
 * `joined(separator:)`. `Split` is the inverse of `Join` used to state what the
 * joined string carries.
 */
module ElementList {

  /** No element occurs twice in `xs`. */
  ghost predicate Distinct(xs: seq<string>) {
    forall i, j :: 0 <= i < j < |xs| ==> xs[i] != xs[j]
  }

  /** `order` lists every element of `s` exactly once, and nothing else. */
  ghost predicate Enumerates(order: seq<string>, s: set<string>) {
    && Distinct(order)
    && (forall x :: x in order <==> x in s)
  }

  /**
   * One enumeration of `s`, in an order the model does not fix: each step
   * takes some element not listed yet.
   */
  method Enumerate(s: set<string>) returns (order: seq<string>)
    ensures Enumerates(order, s)
  {
    order := [];
    var rest := s;
    while rest != {}
      invariant rest <= s
      invariant Distinct(order)
      invariant forall x :: x in order <==> x in s && x !in rest
      decreases rest
    {
      var x :| x in rest;
      order := order + [x];
      rest := rest - {x};
    }
  }

  /** An enumeration of a set is exactly as long as the set is large. */
  lemma {:induction false} EnumerationLength(order: seq<string>, s: set<string>)
    requires Enumerates(order, s)
    ensures |order| == |s|
  {
    if order != [] {
      var rest := order[1..];
      assert order == [order[0]] + rest;
      assert order[0] !in rest by {
        forall j | 0 <= j < |rest| ensures rest[j] != order[0] {
          assert rest[j] == order[j + 1];
        }
      }
      assert Enumerates(rest, s - {order[0]}) by {
        forall i, j | 0 <= i < j < |rest| ensures rest[i] != rest[j] {
          assert rest[i] == order[i + 1] && rest[j] == order[j + 1];
        }
        forall x ensures x in rest <==> x in s - {order[0]} {
          assert x in order <==> x == order[0] || x in rest;
        }
      }
      EnumerationLength(rest, s - {order[0]});
    } else {
      assert forall x :: x !in s;
      assert s == {};
    }
  }

  /**
   * `xs.joined(separator: String(sep))`. The result starts with the first
   * part, and it is empty only for no parts or a single empty part.
   */
  function Join(xs: seq<string>, sep: char): (r: string)
    ensures xs != [] ==> xs[0] <= r
    ensures r == "" <==> xs == [] || xs == [""]
  {
    if xs == [] then ""
    else if |xs| == 1 then xs[0]
    else xs[0] + [sep] + Join(xs[1..], sep)
  }

  /**
   * Cuts `s` at every occurrence of `sep`; `Split("", sep)` is `[""]`. The
   * parts are never empty as a list and never contain the separator.
   */
  function Split(s: string, sep: char): (parts: seq<string>)
    ensures |parts| >= 1
    ensures forall i :: 0 <= i < |parts| ==> sep !in parts[i]
    ensures |parts| == 1 <==> sep !in s
    decreases |s|
  {
    if s == [] then [""]
    else
      var rest := Split(s[1..], sep);
      if s[0] == sep then [""] + rest
      else [[s[0]] + rest[0]] + rest[1..]
  }

  /** Splitting a string with no separator in it gives the string back. */
  lemma {:induction false} SplitWhole(a: string, sep: char)
    requires sep !in a
    ensures Split(a, sep) == [a]
  {
    if a != [] {
      SplitWhole(a[1..], sep);
      assert [a[0]] + a[1..] == a;
    }
  }

  /** Splitting stops at the first separator. */
  lemma {:induction false} SplitFirst(a: string, b: string, sep: char)
    requires sep !in a
    ensures Split(a + [sep] + b, sep) == [a] + Split(b, sep)
  {
    var s := a + [sep] + b;
    if a == [] {
      assert s[1..] == b;
    } else {
      assert s[1..] == a[1..] + [sep] + b;
      SplitFirst(a[1..], b, sep);
      assert [a[0]] + a[1..] == a;
    }
  }

  /**
   * `Split` undoes `Join` on a non-empty list whose parts do not contain the
   * separator.
   */
  lemma {:induction false} SplitJoin(xs: seq<string>, sep: char)
    requires xs != []
    requires forall i :: 0 <= i < |xs| ==> sep !in xs[i]
    ensures Split(Join(xs, sep), sep) == xs
  {
    if |xs| == 1 {
      SplitWhole(xs[0], sep);
    } else {
      SplitJoin(xs[1..], sep);
      SplitFirst(xs[0], Join(xs[1..], sep), sep);
      assert [xs[0]] + xs[1..] == xs;
    }
  }

  /** `e` is `s.joined(separator: ",")` for some enumeration order of `s`. */
  ghost predicate JoinedFrom(e: string, s: set<string>) {
    exists order :: Enumerates(order, s) && Join(order, ',') == e
  }

  /** Joining the empty selection gives the empty string, whatever the order. */
  lemma JoinedFromEmpty(e: string)
    requires JoinedFrom(e, {})
    ensures e == ""
  {
    var order :| Enumerates(order, {}) && Join(order, ',') == e;
    EnumerationLength(order, {});
  }

  /**
   * Whatever the order, a joined non-empty selection of comma-free keys cuts
   * back into a list that names every selected key exactly once.
   */
  lemma JoinedFromDecodes(e: string, s: set<string>)
    requires JoinedFrom(e, s)
    requires s != {}
    requires forall x :: x in s ==> ',' !in x
    ensures Enumerates(Split(e, ','), s)
    ensures |Split(e, ',')| == |s|
  {
    var order :| Enumerates(order, s) && Join(order, ',') == e;
    var x :| x in s;
    assert x in order;
    forall i | 0 <= i < |order| ensures ',' !in order[i] {
      assert order[i] in order;
    }
    SplitJoin(order, ',');
    EnumerationLength(order, s);
  }

  /** A selection of two keys is joined in one of its two orders. */
  lemma JoinedFromPair(e: string, a: string, b: string)
    requires a != b
    requires JoinedFrom(e, {a, b})
    ensures e == a + "," + b || e == b + "," + a
  {
    var order :| Enumerates(order, {a, b}) && Join(order, ',') == e;
    EnumerationLength(order, {a, b});
    assert |order| == 2;
    assert order[0] in {a, b} && order[1] in {a, b};
    assert order[0] != order[1];
    assert Join(order[1..], ',') == order[1];
    assert e == order[0] + "," + order[1];
    if order[0] == a {
      assert order[1] == b;
    } else {
      assert order[0] == b && order[1] == a;
    }
  }
}
