/** RatingCell.swift: the row of five stars that shows a rating. */
module Stars {

  /** Every cell shows this many stars. */
  const StarCount := 5

  /** The stars for a rating, left to right: star `i` is filled exactly when
      `i < rating`. */
  function StarRow(rating: int): (r: seq<bool>)
    ensures |r| == StarCount
    ensures forall i :: 0 <= i < StarCount ==> (r[i] <==> i < rating)
  {
    seq(StarCount, i => i < rating)
  }

  /** The number of filled stars. */
  function Filled(stars: seq<bool>): nat
    decreases |stars|
  {
    if stars == [] then 0
    else Filled(stars[..|stars| - 1]) + (if stars[|stars| - 1] then 1 else 0)
  }

  function Clamp(x: int, lo: int, hi: int): int
  {
    if x < lo then lo else if x > hi then hi else x
  }

  lemma {:induction false} FilledPrefix(rating: int, k: nat)
    requires k <= StarCount
    ensures Filled(StarRow(rating)[..k]) == Clamp(rating, 0, k)
    decreases k
  {
    if k > 0 {
      FilledPrefix(rating, k - 1);
      assert StarRow(rating)[..k][..k - 1] == StarRow(rating)[..k - 1];
    }
  }

  /** A rating fills `rating` stars, none below zero and five at most. */
  lemma FilledCount(rating: int)
    ensures Filled(StarRow(rating)) == Clamp(rating, 0, StarCount)
  {
    FilledPrefix(rating, StarCount);
    assert StarRow(rating)[..StarCount] == StarRow(rating);
  }

  /** Filled stars come before empty ones. */
  lemma FilledFirst(rating: int)
    ensures forall i, j :: 0 <= i < j < StarCount && StarRow(rating)[j] ==> StarRow(rating)[i]
  {
  }

  class RatingCell {
    /** The stack view's stars, left to right. */
    var stars: seq<bool>

    constructor ()
      ensures stars == []
    {
      stars := [];
    }

    /** `configureStars(for:)`: the old stars are removed and five new ones
        added, so the cell shows the star row of the rating whatever it
        showed before. */
    method ConfigureStars(rating: int)
      modifies this`stars
      ensures stars == StarRow(rating)
    {
      stars := [];
      for i := 0 to StarCount
        invariant stars == StarRow(rating)[..i]
      {
        var isFilled := i < rating;
        stars := stars + [isFilled];
      }
      assert StarRow(rating)[..StarCount] == StarRow(rating);
    }
  }
}
