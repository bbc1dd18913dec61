/** Counting members and calls. */
module Counting {

  /** The members of a workflow of `n` jobs. */
  function Members(n: nat): (s: set<nat>)
    ensures |s| == n && forall i: nat :: i in s <==> i < n
  {
    if n == 0 then {} else Members(n - 1) + {n - 1}
  }

  lemma SplitSize(s: set<nat>, bad: set<nat>)
    ensures |s - bad| + |s * bad| == |s|
  {
    assert s == (s - bad) + (s * bad);
  }

  lemma AddMember(s: set<nat>, bad: set<nat>, i: nat)
    requires i !in s
    ensures |(s + {i}) * bad| == |s * bad| + (if i in bad then 1 else 0)
    ensures |(s + {i}) - bad| == |s - bad| + (if i in bad then 0 else 1)
    ensures |s + {i}| == |s| + 1
  {
    if i in bad {
      assert (s + {i}) * bad == (s * bad) + {i} && (s + {i}) - bad == s - bad;
    } else {
      assert (s + {i}) * bad == s * bad && (s + {i}) - bad == (s - bad) + {i};
    }
  }

  lemma SubsetSize(a: set<nat>, b: set<nat>)
    requires a <= b
    ensures |a| <= |b| && (|a| == |b| ==> a == b)
  {
    assert b == a + (b - a);
  }

  /** A call outside the set does not change its counts. */
  lemma LateCall(s: set<nat>, bad: set<nat>, a: nat)
    requires a !in s
    ensures s * (bad + {a}) == s * bad && s - (bad + {a}) == s - bad
    ensures s * (bad - {a}) == s * bad && s - (bad - {a}) == s - bad
  {}

  /** The members that a set of calls is about. */
  function Who(of: map<nat, nat>, s: set<nat>): set<nat> {
    set a | a in s && a in of :: of[a]
  }

  /** No two calls of the set are about the same member. */
  ghost predicate Apart(of: map<nat, nat>, s: set<nat>) {
    forall a, b | a in s && b in s && a in of && b in of && of[a] == of[b] :: a == b
  }

  /** There are as many members as calls exactly when no two calls share one. */
  lemma {:induction false} WhoSize(of: map<nat, nat>, s: set<nat>)
    requires s <= of.Keys
    ensures |Who(of, s)| <= |s| && (|Who(of, s)| == |s| <==> Apart(of, s))
    decreases |s|
  {
    if s != {} {
      var x :| x in s;
      var rest := s - {x};
      WhoSize(of, rest);
      assert Who(of, s) == Who(of, rest) + {of[x]};
      if of[x] in Who(of, rest) {
        assert Who(of, s) == Who(of, rest);
        var y :| y in rest && of[y] == of[x];
      } else {
        assert Apart(of, rest) ==> Apart(of, s) by { forall y | y in rest ensures of[y] != of[x] {} }
      }
    }
  }
}
