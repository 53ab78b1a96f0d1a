/** The duration rules of the generator: the duration bucket, the duration
    multipliers and the rounding of scaled quantities. */
module Rules {
  import opened Items

  datatype Bucket = Short | Medium | Long | Extended

  /** Position of a bucket in the order short, medium, long, extended. */
  function Rank(b: Bucket): nat
  {
    match b
    case Short => 0
    case Medium => 1
    case Long => 2
    case Extended => 3
  }

  /** The duration bucket of a trip. Every integer has one: zero and negative
      durations are short trips, not errors. */
  function DurationBucket(duration: int): (b: Bucket)
    ensures b == Short <==> duration <= 3
    ensures b == Medium <==> 4 <= duration <= 7
    ensures b == Long <==> 8 <= duration <= 14
    ensures b == Extended <==> 15 <= duration
  {
    if duration <= 3 then Short
    else if duration <= 7 then Medium
    else if duration <= 14 then Long
    else Extended
  }

  /** A longer trip never falls into an earlier bucket. */
  lemma BucketMonotone(d1: int, d2: int)
    requires d1 <= d2
    ensures Rank(DurationBucket(d1)) <= Rank(DurationBucket(d2))
  {
  }

  /** The categories the duration multiplier table has entries for. */
  const MultiplierCategories: set<string> := {"clothing", "toiletries"}

  /** The upper bound the scaling step clamps quantities to. */
  const Cap := 10

  /** The duration multiplier of a category and bucket, doubled so that it is an
      integer: clothing 1, 1.5, 2, 2.5 and toiletries 1, 1, 2, 3. */
  function Multiplier(category: string, b: Bucket): (m2: nat)
    requires category in MultiplierCategories
    ensures 2 <= m2 <= 6
  {
    if category == "clothing" then
      match b
      case Short => 2
      case Medium => 3
      case Long => 4
      case Extended => 5
    else
      match b
      case Short => 2
      case Medium => 2
      case Long => 4
      case Extended => 6
  }

  /** A longer bucket never has a smaller multiplier. */
  lemma MultiplierMonotone(category: string, b1: Bucket, b2: Bucket)
    requires category in MultiplierCategories
    requires Rank(b1) <= Rank(b2)
    ensures Multiplier(category, b1) <= Multiplier(category, b2)
  {
  }

  /** Python's `round` applied to n / 2: the nearest integer, and on a tie
      (n odd) the even one of the two neighbours. */
  function RoundHalf(n: int): (r: int)
    ensures -1 <= 2 * r - n <= 1
    ensures 2 * r != n ==> r % 2 == 0
  {
    if n % 2 == 0 then n / 2
    else if (n / 2) % 2 == 0 then n / 2
    else n / 2 + 1
  }

  /** The two properties of RoundHalf single out one integer. */
  lemma RoundHalfUnique(n: int, r: int)
    requires -1 <= 2 * r - n <= 1
    requires 2 * r != n ==> r % 2 == 0
    ensures r == RoundHalf(n)
  {
  }

  /** Rounding halves is monotone. */
  lemma RoundHalfMonotone(n1: int, n2: int)
    requires n1 <= n2
    ensures RoundHalf(n1) <= RoundHalf(n2)
  {
  }

  /** `min(round(q * m), 10)` for the doubled multiplier m2 = 2 * m. */
  function ScaledQuantity(q: int, m2: nat): (r: int)
    requires 2 <= m2
    ensures r <= Cap
    ensures r == Cap <==> q * m2 >= 2 * Cap - 1
    ensures r < Cap ==> -1 <= 2 * r - q * m2 <= 1
    ensures r < Cap && 2 * r != q * m2 ==> r % 2 == 0
    ensures q >= 1 ==> r >= 1
  {
    assert q >= 1 ==> q * m2 >= 2 * q;
    var n := RoundHalf(q * m2);
    assert n >= Cap <==> q * m2 >= 2 * Cap - 1 by {
      if q * m2 >= 2 * Cap - 1 {
        RoundHalfMonotone(2 * Cap - 1, q * m2);
      } else {
        RoundHalfMonotone(q * m2, 2 * Cap - 2);
      }
    }
    if n < Cap then n else Cap
  }

  /** The items the scaling step changes: non-essential items of a category
      that has duration multipliers. */
  predicate Scalable(it: Item)
  {
    it.category in MultiplierCategories && !it.essential
  }

  /** One scaling step applied to an item: scalable items get the scaled quantity,
      every other item is left as it is. */
  function Scale(it: Item, b: Bucket): (r: Item)
    ensures SameExceptQuantity(r, it)
    ensures !Scalable(it) ==> r == it
    ensures Scalable(it) ==> r.quantity <= Cap
    ensures it.quantity >= 1 ==> r.quantity >= 1
  {
    if Scalable(it) then it.(quantity := ScaledQuantity(it.quantity, Multiplier(it.category, b))) else it
  }

  /** The properties of ScaledQuantity single out one integer: they are Python's
      `min(round(q * m), 10)` and nothing else. */
  lemma ScaledQuantityUnique(q: int, m2: nat, r: int)
    requires 2 <= m2
    requires r <= Cap && (r == Cap <==> q * m2 >= 2 * Cap - 1)
    requires r < Cap ==> -1 <= 2 * r - q * m2 <= 1
    requires r < Cap && 2 * r != q * m2 ==> r % 2 == 0
    ensures r == ScaledQuantity(q, m2)
  {
    if r < Cap {
      RoundHalfUnique(q * m2, r);
    }
  }

  /** For a fixed item, a longer trip never yields a smaller scaled quantity. */
  lemma ScaleMonotone(it: Item, b1: Bucket, b2: Bucket)
    requires it.quantity >= 0
    requires Rank(b1) <= Rank(b2)
    ensures Scale(it, b1).quantity <= Scale(it, b2).quantity
  {
    if Scalable(it) {
      var m1, m2 := Multiplier(it.category, b1), Multiplier(it.category, b2);
      MultiplierMonotone(it.category, b1, b2);
      MulMonotone(it.quantity, m1, m2);
      RoundHalfMonotone(it.quantity * m1, it.quantity * m2);
    }
  }

  lemma MulMonotone(q: nat, a: nat, b: nat)
    requires a <= b
    ensures q * a <= q * b
  {
    assert q * b == q * a + q * (b - a);
  }

  /** Scaling a scalable item whose scaled value stays under the cap multiplies its
      quantity by the bucket's multiplier and rounds to the nearest integer, to the
      even one on a tie; the cap is reached exactly when the product is 9.5 or more. */
  lemma ScaleIsNearest(it: Item, b: Bucket)
    requires Scalable(it)
    ensures Scale(it, b).quantity == ScaledQuantity(it.quantity, Multiplier(it.category, b))
    ensures Scale(it, b).quantity == Cap <==> it.quantity * Multiplier(it.category, b) >= 2 * Cap - 1
    ensures Scale(it, b).quantity < Cap ==>
      -1 <= 2 * Scale(it, b).quantity - it.quantity * Multiplier(it.category, b) <= 1
    ensures Scale(it, b).quantity < Cap && 2 * Scale(it, b).quantity != it.quantity * Multiplier(it.category, b) ==>
      Scale(it, b).quantity % 2 == 0
  {
  }

  /** A multiplier of 1 (every short trip, toiletries on a medium trip) leaves a
      quantity up to the cap as it is; a larger one raises every positive quantity
      below the cap. */
  lemma ScaleKeepsOrRaises(it: Item, b: Bucket)
    requires Scalable(it)
    ensures Multiplier(it.category, b) == 2 && it.quantity <= Cap ==> Scale(it, b) == it
    ensures Multiplier(it.category, b) > 2 && 1 <= it.quantity < Cap ==> Scale(it, b).quantity > it.quantity
  {
    var m2 := Multiplier(it.category, b);
    if m2 > 2 && 1 <= it.quantity < Cap {
      assert it.quantity * m2 >= 3 * it.quantity;
    }
  }
}
