/** Iteration in sorted order: the source sorts symbol names before every loop that matters. */
module Symbols {
  import opened Domain

  predicate LexLe(a: string, b: string) {
    a == "" || (b != "" && (a[0] < b[0] || (a[0] == b[0] && LexLe(a[1..], b[1..]))))
  }

  lemma {:induction false} LexTotal(a: string, b: string)
    ensures LexLe(a, b) || LexLe(b, a)
    ensures LexLe(a, b) && LexLe(b, a) ==> a == b
  {
    if a != "" && b != "" && a[0] == b[0] {
      LexTotal(a[1..], b[1..]);
      assert a == [a[0]] + a[1..] && b == [b[0]] + b[1..];
    }
  }

  lemma {:induction false} LexTransitive(a: string, b: string, c: string)
    requires LexLe(a, b) && LexLe(b, c)
    ensures LexLe(a, c)
  {
    if a != "" && a[0] == b[0] && b[0] == c[0] {
      LexTransitive(a[1..], b[1..], c[1..]);
    }
  }

  predicate IsLeast(s: set<Symbol>, x: Symbol) {
    x in s && forall y :: y in s ==> LexLe(x, y)
  }

  lemma LeastExists(s: set<Symbol>)
    requires s != {}
    ensures exists x :: IsLeast(s, x)
  {
    var y :| y in s;
    if s == {y} {
      LexTotal(y, y);
      assert IsLeast(s, y);
    } else {
      LeastExists(s - {y});
      var x :| IsLeast(s - {y}, x);
      LexTotal(x, y);
      LexTotal(y, y);
      if LexLe(x, y) {
        assert IsLeast(s, x);
      } else {
        forall z | z in s
          ensures LexLe(y, z)
        {
          if z != y {
            LexTransitive(y, x, z);
          }
        }
        assert IsLeast(s, y);
      }
    }
  }

  function Least(s: set<Symbol>): (x: Symbol)
    requires s != {}
    ensures IsLeast(s, x)
  {
    LeastExists(s);
    assert forall a, b :: IsLeast(s, a) && IsLeast(s, b) ==> a == b by {
      forall a, b | IsLeast(s, a) && IsLeast(s, b)
        ensures a == b
      {
        LexTotal(a, b);
      }
    }
    var x :| IsLeast(s, x);
    x
  }

  /** sorted(s): every element once, in increasing order. */
  function Sorted(s: set<Symbol>): (r: seq<Symbol>)
    ensures forall x :: x in r <==> x in s
    ensures forall i, j :: 0 <= i < j < |r| ==> LexLe(r[i], r[j]) && r[i] != r[j]
    decreases |s|
  {
    if s == {} then []
    else
      var x := Least(s);
      [x] + Sorted(s - {x})
  }
}
