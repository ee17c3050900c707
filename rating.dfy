/** The three-valued `Rating` of the Kani tutorial's arbitrary-variables
    chapter, its conversion to an integer, and the generator that
    `derive(kani::Arbitrary)` expands to. */
module Ratings {
  import opened Machine

  datatype Rating = One | Two | Three {

    /** The rating as a number of stars; the harness `check_rating` asserts
        that it lies in `1..=3`. */
    function AsInt(): (r: u8)
      ensures 1 <= r <= 3
    {
      match this
      case One => 1
      case Two => 2
      case Three => 3
    }
  }

  /** Each rating has its own number. */
  lemma AsIntInjective(a: Rating, b: Rating)
    ensures a.AsInt() == b.AsInt() <==> a == b
  {
  }

  /** The rating picked from an arbitrary `i32` choice: 0 and 1 pick the first
      two ratings and every other value picks `Three`. */
  function AnyRating(choice: i32): (r: Rating)
    ensures r == One <==> choice == 0
    ensures r == Two <==> choice == 1
  {
    match choice
    case 0 => One
    case 1 => Two
    case _ => Three
  }

  /** Counting stars down from one inverts `AsInt`. */
  lemma AnyRatingInvertsAsInt(r: Rating)
    ensures AnyRating(r.AsInt() - 1) == r
  {
  }

  /** Every rating is produced by some choice, so the generator covers the
      whole type. */
  lemma AnyRatingCoversAll(r: Rating)
    ensures exists choice: i32 :: AnyRating(choice) == r
  {
    AnyRatingInvertsAsInt(r);
  }
}
