/** Finite sums over sets: the language in which the quota ledgers, the files on
    disk and the uploads in flight are compared. */
module Sums {

  datatype Option<+T> = None | Some(value: T)

  ghost function Sum<T>(s: set<T>, f: T -> int): int
  {
    if s == {} then 0 else var x :| x in s; f(x) + Sum(s - {x}, f)
  }

  /** The element taken out first does not matter. */
  lemma {:induction false} SumRemove<T>(s: set<T>, x: T, f: T -> int)
    requires x in s
    ensures Sum(s, f) == f(x) + Sum(s - {x}, f)
    decreases s
  {
    var y :| y in s && Sum(s, f) == f(y) + Sum(s - {y}, f);
    if y != x {
      SumRemove(s - {y}, x, f);
      SumRemove(s - {x}, y, f);
      assert s - {y} - {x} == s - {x} - {y};
    }
  }

  lemma {:induction false} SumAgree<T>(s: set<T>, f: T -> int, g: T -> int)
    requires forall x :: x in s ==> f(x) == g(x)
    ensures Sum(s, f) == Sum(s, g)
    decreases s
  {
    if s != {} {
      var x :| x in s;
      SumRemove(s, x, f);
      SumRemove(s, x, g);
      SumAgree(s - {x}, f, g);
    }
  }

  /** Changing the weight of one element changes the sum by as much. */
  lemma {:induction false} SumChange<T>(s: set<T>, x: T, f: T -> int, g: T -> int)
    requires x in s
    requires forall y :: y in s && y != x ==> f(y) == g(y)
    ensures Sum(s, g) == Sum(s, f) - f(x) + g(x)
  {
    SumRemove(s, x, f);
    SumRemove(s, x, g);
    SumAgree(s - {x}, f, g);
  }

  lemma {:induction false} SumInsert<T>(s: set<T>, x: T, f: T -> int, g: T -> int)
    requires x !in s
    requires forall y :: y in s ==> f(y) == g(y)
    ensures Sum(s + {x}, g) == Sum(s, f) + g(x)
  {
    SumRemove(s + {x}, x, g);
    assert s + {x} - {x} == s;
    SumAgree(s, f, g);
  }

  lemma {:induction false} SumUnion<T>(a: set<T>, b: set<T>, f: T -> int)
    requires a !! b
    ensures Sum(a + b, f) == Sum(a, f) + Sum(b, f)
    decreases b
  {
    if b == {} {
      assert a + b == a;
    } else {
      var x :| x in b;
      SumRemove(b, x, f);
      SumRemove(a + b, x, f);
      assert a + b - {x} == a + (b - {x});
      SumUnion(a, b - {x}, f);
    }
  }

  lemma {:induction false} SumAtMost<T>(s: set<T>, f: T -> int, g: T -> int)
    requires forall x :: x in s ==> f(x) <= g(x)
    ensures Sum(s, f) <= Sum(s, g)
    decreases s
  {
    if s != {} {
      var x :| x in s;
      SumRemove(s, x, f);
      SumRemove(s, x, g);
      SumAtMost(s - {x}, f, g);
    }
  }

  lemma {:induction false} SumNonNegative<T>(s: set<T>, f: T -> int)
    requires forall x :: x in s ==> 0 <= f(x)
    ensures 0 <= Sum(s, f)
    decreases s
  {
    if s != {} {
      var x :| x in s;
      SumRemove(s, x, f);
      SumNonNegative(s - {x}, f);
    }
  }

  /** One weight never exceeds the sum of non-negative weights. */
  lemma {:induction false} SumMember<T>(s: set<T>, x: T, f: T -> int)
    requires x in s
    requires forall y :: y in s ==> 0 <= f(y)
    ensures f(x) <= Sum(s, f)
  {
    SumRemove(s, x, f);
    SumNonNegative(s - {x}, f);
  }

  lemma {:induction false} SumConstant<T>(s: set<T>, f: T -> int, c: int)
    requires forall x :: x in s ==> f(x) == c
    ensures Sum(s, f) == |s| * c
    decreases s
  {
    if s != {} {
      var x :| x in s;
      SumRemove(s, x, f);
      SumConstant(s - {x}, f, c);
    }
  }

  /** Elements of weight zero can be left out. */
  lemma {:induction false} SumSupport<T>(s: set<T>, t: set<T>, f: T -> int)
    requires t <= s
    requires forall x :: x in s - t ==> f(x) == 0
    ensures Sum(s, f) == Sum(t, f)
  {
    SumConstant(s - t, f, 0);
    SumUnion(t, s - t, f);
    assert t + (s - t) == s;
  }

  /** Summing over an image along an injective map. */
  lemma {:induction false} SumImage<T, U>(s: set<T>, h: T -> U, image: set<U>, f: U -> int, g: T -> int)
    requires image == set x | x in s :: h(x)
    requires forall x, y :: x in s && y in s && h(x) == h(y) ==> x == y
    requires forall x :: x in s ==> g(x) == f(h(x))
    ensures Sum(image, f) == Sum(s, g)
    decreases s
  {
    if s == {} {
      assert image == {};
    } else {
      var x :| x in s;
      SumRemove(s, x, g);
      SumRemove(image, h(x), f);
      SumImage(s - {x}, h, image - {h(x)}, f, g);
    }
  }

  /** Along any map, an image weighs at most what the elements mapped to it weigh together. */
  lemma {:induction false} SumImageAtMost<T, U>(s: set<T>, h: T -> U, image: set<U>, f: U -> int, g: T -> int)
    requires image == set x | x in s :: h(x)
    requires forall x :: x in s ==> 0 <= g(x) == f(h(x))
    ensures Sum(image, f) <= Sum(s, g)
    decreases s
  {
    if s == {} {
      assert image == {};
    } else {
      var x :| x in s;
      SumRemove(s, x, g);
      var rest := set y | y in s - {x} :: h(y);
      SumImageAtMost(s - {x}, h, rest, f, g);
      if h(x) in rest {
        assert image == rest;
      } else {
        SumRemove(image, h(x), f);
        assert image - {h(x)} == rest;
      }
    }
  }
}
