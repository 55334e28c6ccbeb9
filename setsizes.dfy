/** Sizes of finite sets of integers. */
module SetSizes {

  /** The members of s below n. */
  ghost function Below(s: set<int>, n: int): set<int>
  {
    set x | x in s && x < n
  }

  /** The images under f of the members of s below n. */
  ghost function ImageBelow(s: set<int>, f: int -> int, n: int): set<int>
  {
    set x | x in s && x < n :: f(x)
  }

  /** Adding the next integer grows the part below by one exactly when it is a member. */
  lemma BelowSizeStep(s: set<int>, n: int)
    ensures |Below(s, n + 1)| == |Below(s, n)| + (if n in s then 1 else 0)
  {
    if n in s {
      assert Below(s, n + 1) == Below(s, n) + {n};
    } else {
      assert Below(s, n + 1) == Below(s, n);
    }
  }

  lemma ImageBelowStep(s: set<int>, f: int -> int, n: int)
    ensures n in s ==> ImageBelow(s, f, n + 1) == ImageBelow(s, f, n) + {f(n)}
    ensures n !in s ==> ImageBelow(s, f, n + 1) == ImageBelow(s, f, n)
  {}

  lemma FreshImage(s: set<int>, f: int -> int, n: int)
    requires forall x, y :: x in s && y in s && f(x) == f(y) ==> x == y
    requires n in s
    ensures f(n) !in ImageBelow(s, f, n)
  {}

  /** For an injective f, the image grows in step with the part below. */
  lemma ImageSizeStep(s: set<int>, f: int -> int, n: int)
    requires forall x, y :: x in s && y in s && f(x) == f(y) ==> x == y
    ensures |ImageBelow(s, f, n + 1)| == |ImageBelow(s, f, n)| + (if n in s then 1 else 0)
  {
    ImageBelowStep(s, f, n);
    if n in s {
      FreshImage(s, f, n);
    }
  }

  lemma BelowStart(s: set<int>, f: int -> int)
    requires forall x :: x in s ==> 0 <= x
    ensures |Below(s, 0)| == 0 && |ImageBelow(s, f, 0)| == 0
  {
    assert Below(s, 0) == {};
    assert ImageBelow(s, f, 0) == {};
  }

  /** An injective map keeps the size of the part of s below n. */
  lemma {:induction false} InjectiveImageSize(s: set<int>, f: int -> int, n: nat)
    requires forall x :: x in s ==> 0 <= x
    requires forall x, y :: x in s && y in s && f(x) == f(y) ==> x == y
    ensures |ImageBelow(s, f, n)| == |Below(s, n)|
  {
    if n == 0 {
      BelowStart(s, f);
    } else {
      InjectiveImageSize(s, f, n - 1);
      BelowSizeStep(s, n - 1);
      ImageSizeStep(s, f, n - 1);
    }
  }
}
