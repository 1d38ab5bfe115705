/** Sorting a set of strings has one result, whatever order the set is iterated in. */
module StringOrder {

  /** Code-point order, as `sorted` compares strings. */
  predicate Less(a: string, b: string) {
    if b == "" then false
    else if a == "" then true
    else a[0] < b[0] || (a[0] == b[0] && Less(a[1..], b[1..]))
  }

  /** The first difference decides; where there is none, the shorter string comes first. */
  lemma {:induction false} LessMeans(a: string, b: string, common: string)
    requires common <= a && common <= b
    ensures common == a ==> (Less(a, b) <==> |a| < |b|)
    ensures common == b ==> !Less(a, b)
    ensures |common| < |a| && |common| < |b| && a[|common|] != b[|common|] ==>
              (Less(a, b) <==> a[|common|] < b[|common|])
    decreases |common|
  {
    if common != "" {
      LessMeans(a[1..], b[1..], common[1..]);
    }
  }

  lemma {:induction false} Trichotomy(a: string, b: string)
    ensures !(Less(a, b) && Less(b, a))
    ensures a != b ==> Less(a, b) || Less(b, a)
    ensures !Less(a, a)
  {
    if a != "" && b != "" && a[0] == b[0] {
      Trichotomy(a[1..], b[1..]);
      assert a == [a[0]] + a[1..] && b == [b[0]] + b[1..];
    }
    if a != "" {
      NotBelowItself(a);
    }
  }

  lemma {:induction false} NotBelowItself(a: string)
    ensures !Less(a, a)
  {
    if a != "" {
      NotBelowItself(a[1..]);
    }
  }

  lemma {:induction false} Transitive(a: string, b: string, c: string)
    requires Less(a, b) && Less(b, c)
    ensures Less(a, c)
  {
    if a != "" && a[0] == b[0] == c[0] {
      Transitive(a[1..], b[1..], c[1..]);
    }
  }

  ghost predicate IsSorted(s: seq<string>) {
    forall i, j :: 0 <= i < j < |s| ==> Less(s[i], s[j])
  }

  ghost predicate Lists(s: seq<string>, elements: set<string>) {
    IsSorted(s) && forall x :: x in s <==> x in elements
  }

  lemma HeadIsLeast(s: seq<string>, elements: set<string>)
    requires Lists(s, elements) && s != []
    ensures s[0] in elements && forall x :: x in elements && x != s[0] ==> Less(s[0], x)
    ensures Lists(s[1..], elements - {s[0]})
  {
    assert s[0] in s;
    forall x | x in elements && x != s[0] ensures Less(s[0], x) {
      var j :| 0 <= j < |s| && s[j] == x;
    }
    forall x ensures x in s[1..] <==> x in elements - {s[0]} {
      if x in s[1..] {
        var j :| 0 <= j < |s[1..]| && s[1..][j] == x;
        assert Less(s[0], s[j + 1]);
        NotBelowItself(s[0]);
      }
      if x in elements - {s[0]} {
        var j :| 0 <= j < |s| && s[j] == x;
        assert s[1..][j - 1] == x;
      }
    }
  }

  lemma {:induction false} SortedListIsUnique(s: seq<string>, t: seq<string>, elements: set<string>)
    requires Lists(s, elements) && Lists(t, elements)
    ensures s == t
    decreases |s|
  {
    assert s != [] ==> s[0] in t;
    assert t != [] ==> t[0] in s;
    if s != [] {
      HeadIsLeast(s, elements);
      HeadIsLeast(t, elements);
      Trichotomy(s[0], t[0]);
      SortedListIsUnique(s[1..], t[1..], elements - {s[0]});
      assert s == [s[0]] + s[1..] && t == [t[0]] + t[1..];
    }
  }

  function Insert(x: string, s: seq<string>): seq<string> {
    if s == [] then [x]
    else if s[0] == x then s
    else if Less(x, s[0]) then [x] + s
    else [s[0]] + Insert(x, s[1..])
  }

  lemma {:induction false} InsertLists(x: string, s: seq<string>, elements: set<string>)
    requires Lists(s, elements)
    ensures Lists(Insert(x, s), elements + {x})
    decreases |s|
  {
    if s == [] {
      assert forall y :: y in Insert(x, s) <==> y in elements + {x};
    } else {
      var head, rest := s[0], s[1..];
      assert s == [head] + rest;
      HeadIsLeast(s, elements);
      if head == x {
        assert elements + {x} == elements;
      } else if Less(x, head) {
        ConsLists(x, s, elements);
        assert [x] + s == Insert(x, s);
      } else {
        Trichotomy(x, head);
        InsertLists(x, rest, elements - {head});
        ConsLists(head, Insert(x, rest), elements - {head} + {x});
        assert elements - {head} + {x} + {head} == elements + {x};
      }
    }
  }

  lemma ConsLists(x: string, s: seq<string>, elements: set<string>)
    requires Lists(s, elements)
    requires s == [] || Less(x, s[0]) || forall y :: y in s ==> Less(x, y)
    ensures Lists([x] + s, elements + {x})
  {
    forall j | 0 <= j < |s| ensures Less(x, s[j]) {
      if j > 0 && Less(x, s[0]) {
        Transitive(x, s[0], s[j]);
      } else {
        assert s[j] in s;
      }
    }
    var t := [x] + s;
    forall i, j | 0 <= i < j < |t| ensures Less(t[i], t[j]) {
      assert t[j] == s[j - 1];
    }
  }

  lemma {:induction false} SortedListExists(elements: set<string>)
    ensures exists s :: Lists(s, elements)
    decreases |elements|
  {
    if elements == {} {
      assert Lists([], elements);
    } else {
      var x :| x in elements;
      SortedListExists(elements - {x});
      var t :| Lists(t, elements - {x});
      InsertLists(x, t, elements - {x});
      assert elements - {x} + {x} == elements;
    }
  }

  /** `sorted(elements)` */
  ghost function Sorted(elements: set<string>): (s: seq<string>)
    ensures Lists(s, elements)
  {
    SortedListExists(elements);
    var s :| Lists(s, elements);
    s
  }

  /** Sorting while taking the elements out of the set in any order. */
  method Sort(elements: set<string>) returns (s: seq<string>)
    ensures s == Sorted(elements)
  {
    s := [];
    var rest := elements;
    while rest != {}
      invariant rest <= elements && Lists(s, elements - rest)
      decreases |rest|
    {
      var x :| x in rest;
      InsertLists(x, s, elements - rest);
      s := Insert(x, s);
      assert elements - (rest - {x}) == elements - rest + {x};
      rest := rest - {x};
    }
    assert elements - rest == elements;
    SortedListIsUnique(s, Sorted(elements), elements);
  }
}
