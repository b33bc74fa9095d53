/**
 * `Array.prototype.sort` with a comparator, as the scheduler's list view and
 * the chat widget's model list use it: a stable sort, modelled as insertion
 * sort on sequences. `le(a, b)` means the comparator does not put `b` before
 * `a`.
 */
module Sorting {

  ghost predicate TotalPreorder<T(!new)>(le: (T, T) -> bool) {
    && (forall a, b :: le(a, b) || le(b, a))
    && (forall a, b, c :: le(a, b) && le(b, c) ==> le(a, c))
  }

  predicate SortedBy<T>(s: seq<T>, le: (T, T) -> bool) {
    forall i, j :: 0 <= i < j < |s| ==> le(s[i], s[j])
  }

  /** Puts `x` after every element it does not strictly precede. */
  function Insert<T>(s: seq<T>, x: T, le: (T, T) -> bool): (r: seq<T>)
    ensures multiset(r) == multiset(s) + multiset{x}
  {
    if s == [] then [x]
    else if !le(s[0], x) then [x] + s
    else
      assert s == [s[0]] + s[1..];
      [s[0]] + Insert(s[1..], x, le)
  }

  lemma {:induction false} InsertSorted<T(!new)>(s: seq<T>, x: T, le: (T, T) -> bool)
    requires TotalPreorder(le) && SortedBy(s, le)
    ensures SortedBy(Insert(s, x, le), le)
  {
    if s != [] {
      if !le(s[0], x) {
        assert le(x, s[0]);
      } else {
        var rest := Insert(s[1..], x, le);
        InsertSorted(s[1..], x, le);
        assert forall e :: e in rest ==> le(s[0], e) by {
          forall e | e in rest ensures le(s[0], e) {
            assert e in multiset(rest);
            if e != x {
              assert e in multiset(s[1..]);
              var j :| 0 <= j < |s[1..]| && s[1..][j] == e;
              assert s[j + 1] == e;
            }
          }
        }
        var r := [s[0]] + rest;
        forall i, j | 0 <= i < j < |r| ensures le(r[i], r[j]) {
          if i == 0 {
            assert r[j] == rest[j - 1];
          } else {
            assert r[i] == rest[i - 1] && r[j] == rest[j - 1];
          }
        }
      }
    }
  }

  /** `[...s].sort(cmp)`: inserts the elements one by one, left to right. */
  function Sort<T>(s: seq<T>, le: (T, T) -> bool): (r: seq<T>)
    ensures multiset(r) == multiset(s)
    decreases |s|
  {
    if s == [] then []
    else
      assert s == s[..|s| - 1] + [s[|s| - 1]];
      Insert(Sort(s[..|s| - 1], le), s[|s| - 1], le)
  }

  /** The sorted copy is in comparator order. */
  lemma {:induction false} SortSorted<T(!new)>(s: seq<T>, le: (T, T) -> bool)
    requires TotalPreorder(le)
    ensures SortedBy(Sort(s, le), le)
    decreases |s|
  {
    if s != [] {
      SortSorted(s[..|s| - 1], le);
      InsertSorted(Sort(s[..|s| - 1], le), s[|s| - 1], le);
    }
  }

  /** The first element of the sorted copy precedes-or-ties every element. */
  lemma SortFirstIsLeast<T(!new)>(s: seq<T>, le: (T, T) -> bool)
    requires TotalPreorder(le) && s != []
    ensures |Sort(s, le)| == |s|
    ensures forall e :: e in s ==> le(Sort(s, le)[0], e)
  {
    var r := Sort(s, le);
    SortSorted(s, le);
    assert |r| == |multiset(r)| == |multiset(s)| == |s|;
    forall e | e in s ensures le(r[0], e) {
      assert e in multiset(s);
      assert e in multiset(r);
      var j :| 0 <= j < |r| && r[j] == e;
      assert le(e, e) || le(e, e);
    }
  }

  // Stability: elements the comparator ties keep their relative order.

  /** `a` and `b` tie: neither is put before the other. */
  predicate Tied<T>(a: T, b: T, le: (T, T) -> bool) {
    le(a, b) && le(b, a)
  }

  /** The elements of `s` that tie with `p`, in their order in `s`. */
  function Ties<T>(s: seq<T>, p: T, le: (T, T) -> bool): (r: seq<T>)
    ensures |r| <= |s|
  {
    if s == [] then [] else (if Tied(s[0], p, le) then [s[0]] else []) + Ties(s[1..], p, le)
  }

  lemma {:induction false} TiesAppend<T>(a: seq<T>, b: seq<T>, p: T, le: (T, T) -> bool)
    ensures Ties(a + b, p, le) == Ties(a, p, le) + Ties(b, p, le)
    decreases |a|
  {
    if a == [] {
      assert a + b == b;
    } else {
      var head := if Tied(a[0], p, le) then [a[0]] else [];
      assert (a + b)[0] == a[0] && (a + b)[1..] == a[1..] + b;
      TiesAppend(a[1..], b, p, le);
      calc {
        Ties(a + b, p, le);
        head + Ties(a[1..] + b, p, le);
        head + (Ties(a[1..], p, le) + Ties(b, p, le));
        (head + Ties(a[1..], p, le)) + Ties(b, p, le);
      }
    }
  }

  /** A sequence none of whose elements ties with `p` has no ties. */
  lemma {:induction false} NoTies<T>(s: seq<T>, p: T, le: (T, T) -> bool)
    requires forall i :: 0 <= i < |s| ==> !Tied(s[i], p, le)
    ensures Ties(s, p, le) == []
    decreases |s|
  {
    if s != [] {
      assert forall i :: 0 <= i < |s[1..]| ==> s[1..][i] == s[i + 1];
      NoTies(s[1..], p, le);
    }
  }

  lemma {:induction false} TiesSingle<T>(x: T, p: T, le: (T, T) -> bool)
    ensures Ties([x], p, le) == if Tied(x, p, le) then [x] else []
  {
    assert [x][1..] == [];
  }

  lemma {:induction false} SortedTail<T>(s: seq<T>, le: (T, T) -> bool)
    requires s != [] && SortedBy(s, le)
    ensures SortedBy(s[1..], le)
  {
    forall i, j | 0 <= i < j < |s[1..]| ensures le(s[1..][i], s[1..][j]) {
      assert s[1..][i] == s[i + 1] && s[1..][j] == s[j + 1];
    }
  }

  /** Every element of a sorted sequence whose head `x` strictly precedes fails to tie with anything `x` ties. */
  lemma {:induction false} NoTiesAfter<T(!new)>(s: seq<T>, x: T, p: T, le: (T, T) -> bool)
    requires TotalPreorder(le) && SortedBy(s, le) && s != [] && !le(s[0], x) && Tied(x, p, le)
    ensures Ties(s, p, le) == []
  {
    forall i | 0 <= i < |s| ensures !Tied(s[i], p, le) {
      assert i == 0 || le(s[0], s[i]);
    }
    NoTies(s, p, le);
  }

  /**
   * Inserting into a sorted sequence puts `x` after every element it ties
   * with, as if `x` were appended: the ties of any `p` come out in the same
   * order.
   */
  lemma {:induction false} InsertTies<T(!new)>(s: seq<T>, x: T, p: T, le: (T, T) -> bool)
    requires TotalPreorder(le) && SortedBy(s, le)
    ensures Ties(Insert(s, x, le), p, le) == Ties(s, p, le) + Ties([x], p, le)
    decreases |s|
  {
    if s == [] {
      TiesSingle(x, p, le);
      assert Ties(s, p, le) == [];
    } else if !le(s[0], x) {
      if Tied(x, p, le) {
        NoTiesAfter(s, x, p, le);
      }
      InsertTiesFront(s, x, p, le);
    } else {
      SortedTail(s, le);
      InsertTies(s[1..], x, p, le);
      InsertTiesStep(s, x, p, le);
    }
  }

  /** `x` inserted in front of `s`, after none of its ties. */
  lemma {:induction false} InsertTiesFront<T>(s: seq<T>, x: T, p: T, le: (T, T) -> bool)
    requires s != [] && !le(s[0], x)
    requires Tied(x, p, le) ==> Ties(s, p, le) == []
    ensures Ties(Insert(s, x, le), p, le) == Ties(s, p, le) + Ties([x], p, le)
  {
    TiesSingle(x, p, le);
    assert Insert(s, x, le) == [x] + s;
    TiesAppend([x], s, p, le);
    if Tied(x, p, le) {
      assert Ties([x], p, le) + Ties(s, p, le) == [x] == Ties(s, p, le) + Ties([x], p, le);
    } else {
      assert Ties([x], p, le) + Ties(s, p, le) == Ties(s, p, le) == Ties(s, p, le) + Ties([x], p, le);
    }
  }

  /** `x` inserted past the head of `s`: the head's tie, if any, stays in front. */
  lemma {:induction false} InsertTiesStep<T>(s: seq<T>, x: T, p: T, le: (T, T) -> bool)
    requires s != [] && le(s[0], x)
    requires Ties(Insert(s[1..], x, le), p, le) == Ties(s[1..], p, le) + Ties([x], p, le)
    ensures Ties(Insert(s, x, le), p, le) == Ties(s, p, le) + Ties([x], p, le)
  {
    var head := Ties([s[0]], p, le);
    var rest := Insert(s[1..], x, le);
    assert Insert(s, x, le) == [s[0]] + rest;
    TiesAppend([s[0]], rest, p, le);
    TiesSingle(s[0], p, le);
    assert Ties(s, p, le) == head + Ties(s[1..], p, le);
    calc {
      Ties(Insert(s, x, le), p, le);
      head + Ties(rest, p, le);
      head + (Ties(s[1..], p, le) + Ties([x], p, le));
      (head + Ties(s[1..], p, le)) + Ties([x], p, le);
      Ties(s, p, le) + Ties([x], p, le);
    }
  }

  /** `[...s].sort(cmp)` is stable: the elements tying with any `p` keep their order. */
  lemma {:induction false} SortStable<T(!new)>(s: seq<T>, p: T, le: (T, T) -> bool)
    requires TotalPreorder(le)
    ensures Ties(Sort(s, le), p, le) == Ties(s, p, le)
    decreases |s|
  {
    if s != [] {
      var init := s[..|s| - 1];
      var last := s[|s| - 1];
      assert s == init + [last];
      SortStable(init, p, le);
      SortSorted(init, le);
      InsertTies(Sort(init, le), last, p, le);
      TiesAppend(init, [last], p, le);
    }
  }
}
