/**
 * The move predictor's class labels: the 60 squares that can ever be played
 * (every square but the four starting squares 27, 28, 35 and 36) numbered
 * 0..59 in square order, and the inverse numbering.
 *
 * The two tables are written out entry by entry, in six displays of ten
 * entries each; the rule their entries follow (squares below 27 keep their
 * number, squares 29..34 lose two, squares 37..63 lose four) is proved of
 * them display by display, and the other properties are proved from it.
 */
module Classes {
  /** A square a move can be made on: any square but the four starting squares. */
  predicate Playable(s: int)
  {
    0 <= s < 64 && s != 27 && s != 28 && s != 35 && s != 36
  }

  /** The label of a playable square. */
  function ClassOf(s: int): int
  {
    if s < 27 then s else if s < 35 then s - 2 else s - 4
  }

  /** The square of a label, as cnn.cpp also computes it. */
  function SquareOf(k: int): int
  {
    if k < 27 then k else if k < 33 then k + 2 else k + 4
  }

  /** Joining a display of the keys lo..mid to one of the keys mid+1..hi, both following the same rule at x. */
  lemma Merge(a: map<int, int>, b: map<int, int>, x: int, lo: int, mid: int, hi: int, member: bool, value: int)
    requires lo <= mid <= hi
    requires x in a <==> lo <= x <= mid && member
    requires x in a ==> a[x] == value
    requires x in b <==> mid < x <= hi && member
    requires x in b ==> b[x] == value
    ensures x in a + b <==> lo <= x <= hi && member
    ensures x in a + b ==> (a + b)[x] == value
  {}

  // Square2Class: square to class label, in six displays.

  const Labels0: map<int, int> := map[0 := 0, 1 := 1, 2 := 2, 3 := 3, 4 := 4, 5 := 5, 6 := 6, 7 := 7, 8 := 8, 9 := 9]
  const Labels1: map<int, int> := map[10 := 10, 11 := 11, 12 := 12, 13 := 13, 14 := 14, 15 := 15, 16 := 16, 17 := 17, 18 := 18, 19 := 19]
  const Labels2: map<int, int> := map[20 := 20, 21 := 21, 22 := 22, 23 := 23, 24 := 24, 25 := 25, 26 := 26, 29 := 27, 30 := 28, 31 := 29]
  const Labels3: map<int, int> := map[32 := 30, 33 := 31, 34 := 32, 37 := 33, 38 := 34, 39 := 35, 40 := 36, 41 := 37, 42 := 38, 43 := 39]
  const Labels4: map<int, int> := map[44 := 40, 45 := 41, 46 := 42, 47 := 43, 48 := 44, 49 := 45, 50 := 46, 51 := 47, 52 := 48, 53 := 49]
  const Labels5: map<int, int> := map[54 := 50, 55 := 51, 56 := 52, 57 := 53, 58 := 54, 59 := 55, 60 := 56, 61 := 57, 62 := 58, 63 := 59]

  /** Square2Class: the six displays joined, 60 entries in all. */
  const Square2Class: map<int, int> := Labels0 + Labels1 + Labels2 + Labels3 + Labels4 + Labels5

  // Each display holds exactly the playable squares of its range, labelled by ClassOf;
  // joined one display at a time, they hold all of them.

  lemma LabelsEntries0(s: int)
    ensures s in Labels0 <==> 0 <= s <= 9 && Playable(s)
    ensures s in Labels0 ==> Labels0[s] == ClassOf(s)
  {}

  lemma LabelsEntries1(s: int)
    ensures s in Labels1 <==> 10 <= s <= 19 && Playable(s)
    ensures s in Labels1 ==> Labels1[s] == ClassOf(s)
  {}

  lemma LabelsEntries2(s: int)
    ensures s in Labels2 <==> 20 <= s <= 31 && Playable(s)
    ensures s in Labels2 ==> Labels2[s] == ClassOf(s)
  {}

  lemma LabelsEntries3(s: int)
    ensures s in Labels3 <==> 32 <= s <= 43 && Playable(s)
    ensures s in Labels3 ==> Labels3[s] == ClassOf(s)
  {}

  lemma LabelsEntries4(s: int)
    ensures s in Labels4 <==> 44 <= s <= 53 && Playable(s)
    ensures s in Labels4 ==> Labels4[s] == ClassOf(s)
  {}

  lemma LabelsEntries5(s: int)
    ensures s in Labels5 <==> 54 <= s <= 63 && Playable(s)
    ensures s in Labels5 ==> Labels5[s] == ClassOf(s)
  {}

  lemma LabelsPrefix1(s: int)
    ensures s in Labels0 + Labels1 <==> 0 <= s <= 19 && Playable(s)
    ensures s in Labels0 + Labels1 ==> (Labels0 + Labels1)[s] == ClassOf(s)
  {
    LabelsEntries0(s);
    LabelsEntries1(s);
    Merge(Labels0, Labels1, s, 0, 9, 19, Playable(s), ClassOf(s));
  }

  lemma LabelsPrefix2(s: int)
    ensures s in Labels0 + Labels1 + Labels2 <==> 0 <= s <= 31 && Playable(s)
    ensures s in Labels0 + Labels1 + Labels2 ==> (Labels0 + Labels1 + Labels2)[s] == ClassOf(s)
  {
    LabelsPrefix1(s);
    LabelsEntries2(s);
    Merge(Labels0 + Labels1, Labels2, s, 0, 19, 31, Playable(s), ClassOf(s));
  }

  lemma LabelsPrefix3(s: int)
    ensures s in Labels0 + Labels1 + Labels2 + Labels3 <==> 0 <= s <= 43 && Playable(s)
    ensures s in Labels0 + Labels1 + Labels2 + Labels3 ==> (Labels0 + Labels1 + Labels2 + Labels3)[s] == ClassOf(s)
  {
    LabelsPrefix2(s);
    LabelsEntries3(s);
    Merge(Labels0 + Labels1 + Labels2, Labels3, s, 0, 31, 43, Playable(s), ClassOf(s));
  }

  lemma LabelsPrefix4(s: int)
    ensures s in Labels0 + Labels1 + Labels2 + Labels3 + Labels4 <==> 0 <= s <= 53 && Playable(s)
    ensures s in Labels0 + Labels1 + Labels2 + Labels3 + Labels4 ==> (Labels0 + Labels1 + Labels2 + Labels3 + Labels4)[s] == ClassOf(s)
  {
    LabelsPrefix3(s);
    LabelsEntries4(s);
    Merge(Labels0 + Labels1 + Labels2 + Labels3, Labels4, s, 0, 43, 53, Playable(s), ClassOf(s));
  }

  lemma LabelsPrefix5(s: int)
    ensures s in Labels0 + Labels1 + Labels2 + Labels3 + Labels4 + Labels5 <==> 0 <= s <= 63 && Playable(s)
    ensures s in Labels0 + Labels1 + Labels2 + Labels3 + Labels4 + Labels5 ==> (Labels0 + Labels1 + Labels2 + Labels3 + Labels4 + Labels5)[s] == ClassOf(s)
  {
    LabelsPrefix4(s);
    LabelsEntries5(s);
    Merge(Labels0 + Labels1 + Labels2 + Labels3 + Labels4, Labels5, s, 0, 53, 63, Playable(s), ClassOf(s));
  }

  // Class2Square: class label to square, in six displays.

  const Squares0: map<int, int> := map[0 := 0, 1 := 1, 2 := 2, 3 := 3, 4 := 4, 5 := 5, 6 := 6, 7 := 7, 8 := 8, 9 := 9]
  const Squares1: map<int, int> := map[10 := 10, 11 := 11, 12 := 12, 13 := 13, 14 := 14, 15 := 15, 16 := 16, 17 := 17, 18 := 18, 19 := 19]
  const Squares2: map<int, int> := map[20 := 20, 21 := 21, 22 := 22, 23 := 23, 24 := 24, 25 := 25, 26 := 26, 27 := 29, 28 := 30, 29 := 31]
  const Squares3: map<int, int> := map[30 := 32, 31 := 33, 32 := 34, 33 := 37, 34 := 38, 35 := 39, 36 := 40, 37 := 41, 38 := 42, 39 := 43]
  const Squares4: map<int, int> := map[40 := 44, 41 := 45, 42 := 46, 43 := 47, 44 := 48, 45 := 49, 46 := 50, 47 := 51, 48 := 52, 49 := 53]
  const Squares5: map<int, int> := map[50 := 54, 51 := 55, 52 := 56, 53 := 57, 54 := 58, 55 := 59, 56 := 60, 57 := 61, 58 := 62, 59 := 63]

  /** Class2Square: the six displays joined, 60 entries in all. */
  const Class2Square: map<int, int> := Squares0 + Squares1 + Squares2 + Squares3 + Squares4 + Squares5

  // Each display holds exactly the labels of its range, sent to SquareOf;
  // joined one display at a time, they hold all 60.

  lemma SquaresEntries0(k: int)
    ensures k in Squares0 <==> 0 <= k <= 9 && 0 <= k < 60
    ensures k in Squares0 ==> Squares0[k] == SquareOf(k)
  {}

  lemma SquaresEntries1(k: int)
    ensures k in Squares1 <==> 10 <= k <= 19 && 0 <= k < 60
    ensures k in Squares1 ==> Squares1[k] == SquareOf(k)
  {}

  lemma SquaresEntries2(k: int)
    ensures k in Squares2 <==> 20 <= k <= 29 && 0 <= k < 60
    ensures k in Squares2 ==> Squares2[k] == SquareOf(k)
  {}

  lemma SquaresEntries3(k: int)
    ensures k in Squares3 <==> 30 <= k <= 39 && 0 <= k < 60
    ensures k in Squares3 ==> Squares3[k] == SquareOf(k)
  {}

  lemma SquaresEntries4(k: int)
    ensures k in Squares4 <==> 40 <= k <= 49 && 0 <= k < 60
    ensures k in Squares4 ==> Squares4[k] == SquareOf(k)
  {}

  lemma SquaresEntries5(k: int)
    ensures k in Squares5 <==> 50 <= k <= 59 && 0 <= k < 60
    ensures k in Squares5 ==> Squares5[k] == SquareOf(k)
  {}

  lemma SquaresPrefix1(k: int)
    ensures k in Squares0 + Squares1 <==> 0 <= k <= 19 && 0 <= k < 60
    ensures k in Squares0 + Squares1 ==> (Squares0 + Squares1)[k] == SquareOf(k)
  {
    SquaresEntries0(k);
    SquaresEntries1(k);
    Merge(Squares0, Squares1, k, 0, 9, 19, 0 <= k < 60, SquareOf(k));
  }

  lemma SquaresPrefix2(k: int)
    ensures k in Squares0 + Squares1 + Squares2 <==> 0 <= k <= 29 && 0 <= k < 60
    ensures k in Squares0 + Squares1 + Squares2 ==> (Squares0 + Squares1 + Squares2)[k] == SquareOf(k)
  {
    SquaresPrefix1(k);
    SquaresEntries2(k);
    Merge(Squares0 + Squares1, Squares2, k, 0, 19, 29, 0 <= k < 60, SquareOf(k));
  }

  lemma SquaresPrefix3(k: int)
    ensures k in Squares0 + Squares1 + Squares2 + Squares3 <==> 0 <= k <= 39 && 0 <= k < 60
    ensures k in Squares0 + Squares1 + Squares2 + Squares3 ==> (Squares0 + Squares1 + Squares2 + Squares3)[k] == SquareOf(k)
  {
    SquaresPrefix2(k);
    SquaresEntries3(k);
    Merge(Squares0 + Squares1 + Squares2, Squares3, k, 0, 29, 39, 0 <= k < 60, SquareOf(k));
  }

  lemma SquaresPrefix4(k: int)
    ensures k in Squares0 + Squares1 + Squares2 + Squares3 + Squares4 <==> 0 <= k <= 49 && 0 <= k < 60
    ensures k in Squares0 + Squares1 + Squares2 + Squares3 + Squares4 ==> (Squares0 + Squares1 + Squares2 + Squares3 + Squares4)[k] == SquareOf(k)
  {
    SquaresPrefix3(k);
    SquaresEntries4(k);
    Merge(Squares0 + Squares1 + Squares2 + Squares3, Squares4, k, 0, 39, 49, 0 <= k < 60, SquareOf(k));
  }

  lemma SquaresPrefix5(k: int)
    ensures k in Squares0 + Squares1 + Squares2 + Squares3 + Squares4 + Squares5 <==> 0 <= k <= 59 && 0 <= k < 60
    ensures k in Squares0 + Squares1 + Squares2 + Squares3 + Squares4 + Squares5 ==> (Squares0 + Squares1 + Squares2 + Squares3 + Squares4 + Squares5)[k] == SquareOf(k)
  {
    SquaresPrefix4(k);
    SquaresEntries5(k);
    Merge(Squares0 + Squares1 + Squares2 + Squares3 + Squares4, Squares5, k, 0, 49, 59, 0 <= k < 60, SquareOf(k));
  }

  /** The entries of Square2Class follow the rule: every playable square, and only those, labelled ClassOf. */
  lemma Square2ClassRule(s: int)
    ensures s in Square2Class <==> Playable(s)
    ensures s in Square2Class ==> Square2Class[s] == ClassOf(s)
  {
    LabelsPrefix5(s);
  }

  /** The entries of Class2Square follow the rule: every label 0..59, and only those, sent to SquareOf. */
  lemma Class2SquareRule(k: int)
    ensures k in Class2Square <==> 0 <= k < 60
    ensures k in Class2Square ==> Class2Square[k] == SquareOf(k)
  {
    SquaresPrefix5(k);
  }

  /** A table that labels ClassOf(s) every playable square s and has no other keys. */
  ghost predicate LabelsPlayable(m: map<int, int>)
  {
    forall s :: (s in m <==> Playable(s)) && (s in m ==> m[s] == ClassOf(s))
  }

  /** A table that sends every label 0..59 to SquareOf and has no other keys. */
  ghost predicate SquaresLabels(m: map<int, int>)
  {
    forall k :: (k in m <==> 0 <= k < 60) && (k in m ==> m[k] == SquareOf(k))
  }

  lemma Square2ClassFollows()
    ensures LabelsPlayable(Square2Class)
  {
    forall s ensures (s in Square2Class <==> Playable(s)) && (s in Square2Class ==> Square2Class[s] == ClassOf(s)) {
      Square2ClassRule(s);
    }
  }

  lemma Class2SquareFollows()
    ensures SquaresLabels(Class2Square)
  {
    forall k ensures (k in Class2Square <==> 0 <= k < 60) && (k in Class2Square ==> Class2Square[k] == SquareOf(k)) {
      Class2SquareRule(k);
    }
  }

  /** How many playable squares lie below square n. */
  function PlayableBelow(n: int): int
  {
    if n <= 0 then 0 else PlayableBelow(n - 1) + (if Playable(n - 1) then 1 else 0)
  }

  /** Counting the playable squares below n skips the four starting squares. */
  lemma {:induction false} PlayableBelowForm(n: int)
    requires 0 <= n <= 64
    ensures PlayableBelow(n) == if n <= 27 then n else if n <= 29 then 27 else if n <= 35 then n - 2 else if n <= 37 then 33 else n - 4
  {
    if n > 0 {
      PlayableBelowForm(n - 1);
    }
  }

  // The properties below are proved of any tables that follow the rules,
  // then of the two tables themselves.

  lemma ClassIsRankOf(labels: map<int, int>, s: int)
    requires LabelsPlayable(labels) && s in labels
    ensures labels[s] == PlayableBelow(s)
  {
    PlayableBelowForm(s);
  }

  lemma ValuesOf(labels: map<int, int>)
    requires LabelsPlayable(labels)
    ensures forall s | s in labels :: 0 <= labels[s] < 60
    ensures forall k | 0 <= k < 60 :: k in labels.Values
  {
    forall k | 0 <= k < 60 ensures k in labels.Values {
      var s := SquareOf(k);
      assert s in labels && labels[s] == k;
    }
  }

  lemma ClassRoundTripOf(labels: map<int, int>, squares: map<int, int>, s: int)
    requires LabelsPlayable(labels) && SquaresLabels(squares) && s in labels
    ensures labels[s] in squares && squares[labels[s]] == s
  {}

  lemma SquareRoundTripOf(labels: map<int, int>, squares: map<int, int>, k: int)
    requires LabelsPlayable(labels) && SquaresLabels(squares) && k in squares
    ensures squares[k] in labels && labels[squares[k]] == k
  {}

  /** A label is the number of playable squares before its square. */
  lemma ClassIsRank(s: int)
    requires s in Square2Class
    ensures Square2Class[s] == PlayableBelow(s)
  {
    Square2ClassFollows();
    ClassIsRankOf(Square2Class, s);
  }

  /** The labels are exactly 0..59. */
  lemma Square2ClassValues()
    ensures forall s | s in Square2Class :: 0 <= Square2Class[s] < 60
    ensures forall k | 0 <= k < 60 :: k in Square2Class.Values
  {
    Square2ClassFollows();
    ValuesOf(Square2Class);
  }

  /** Square2Class is strictly increasing. */
  lemma Square2ClassIncreasing(s: int, t: int)
    requires s in Square2Class && t in Square2Class && s < t
    ensures Square2Class[s] < Square2Class[t]
  {
    Square2ClassRule(s);
    Square2ClassRule(t);
  }

  /** Class2Square undoes Square2Class. */
  lemma ClassRoundTrip(s: int)
    requires s in Square2Class
    ensures Square2Class[s] in Class2Square && Class2Square[Square2Class[s]] == s
  {
    Square2ClassFollows();
    Class2SquareFollows();
    ClassRoundTripOf(Square2Class, Class2Square, s);
  }

  /** Square2Class undoes Class2Square. */
  lemma SquareRoundTrip(k: int)
    requires k in Class2Square
    ensures Class2Square[k] in Square2Class && Square2Class[Class2Square[k]] == k
  {
    Square2ClassFollows();
    Class2SquareFollows();
    SquareRoundTripOf(Square2Class, Class2Square, k);
  }

  /** No label stands for a starting square. */
  lemma NoStartingSquare(k: int)
    requires k in Class2Square
    ensures Playable(Class2Square[k])
  {
    Class2SquareRule(k);
  }
}
