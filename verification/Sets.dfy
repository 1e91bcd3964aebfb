/** Counting finite sets. */
module Sets {

  lemma {:induction false} Fewer<T>(a: set<T>, b: set<T>)
    requires a <= b
    ensures |a| <= |b|
  {
    if a != {} {
      var x :| x in a;
      Fewer(a - {x}, b - {x});
    }
  }

  lemma Larger<T>(a: set<T>, x: T)
    ensures |a + {x}| == if x in a then |a| else |a| + 1
  {
    if x in a { assert a + {x} == a; }
  }

  lemma Smaller<T>(a: set<T>, x: T)
    ensures |a - {x}| == if x in a then |a| - 1 else |a|
  {
    if x in a { assert a == (a - {x}) + {x}; } else { assert a - {x} == a; }
  }
}
