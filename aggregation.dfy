/** What Rating_Report_Card::set_ratings computes: the configured categories, in
    their configured order, joined with the stored ratings, and the rounded
    average of the ratings that matched. */
module Aggregation {
  import opened PhpSemantics

  /** One entry of the configured category map: its key and display name. */
  datatype Category = Category(key: string, name: string)

  /** One element of the card's ratings array: {category, rating}. */
  datatype RatingRecord = RatingRecord(category: string, rating: real)

  /** What the foreach body emits for one category: a record if the category's
      key is in the ratings map, nothing otherwise. */
  function RecordFor(c: Category, ratings: map<string, real>): seq<RatingRecord> {
    if c.key in ratings then [RatingRecord(c.name, ratings[c.key])] else []
  }

  /** The records the foreach over the first |cats| categories has emitted. */
  function Join(cats: seq<Category>, ratings: map<string, real>): seq<RatingRecord> {
    if cats == [] then []
    else Join(cats[..|cats| - 1], ratings) + RecordFor(cats[|cats| - 1], ratings)
  }

  /** The running total of the ratings of some records. */
  function Total(records: seq<RatingRecord>): real {
    if records == [] then 0.0
    else Total(records[..|records| - 1]) + records[|records| - 1].rating
  }

  /** round(total / count, 2): the stored average. */
  function Average(records: seq<RatingRecord>): real
    requires |records| > 0
  {
    Round2(Total(records) / |records| as real)
  }

  /** The positions, ascending, of the configured categories that have a rating. */
  function Matched(cats: seq<Category>, ratings: map<string, real>): (m: seq<int>)
    ensures forall i :: i in m <==> 0 <= i < |cats| && cats[i].key in ratings
    ensures forall j, k :: 0 <= j < k < |m| ==> m[j] < m[k]
  {
    if cats == [] then []
    else
      var n := |cats| - 1;
      var front := Matched(cats[..n], ratings);
      assert forall j :: 0 <= j < |front| ==> front[j] < n by {
        forall j | 0 <= j < |front| ensures front[j] < n { assert front[j] in front; }
      }
      front + (if cats[n].key in ratings then [n] else [])
  }

  /** One record per configured category whose key has a rating, in configured
      order, carrying that category's name and that rating; nothing else. */
  lemma {:induction false} JoinMatches(cats: seq<Category>, ratings: map<string, real>)
    ensures |Join(cats, ratings)| == |Matched(cats, ratings)|
    ensures forall j :: 0 <= j < |Matched(cats, ratings)| ==>
      var i := Matched(cats, ratings)[j];
      0 <= i < |cats| && cats[i].key in ratings &&
      Join(cats, ratings)[j] == RatingRecord(cats[i].name, ratings[cats[i].key])
  {
    if cats != [] {
      var n := |cats| - 1;
      JoinMatches(cats[..n], ratings);
      var m, m' := Matched(cats, ratings), Matched(cats[..n], ratings);
      var r, r' := Join(cats, ratings), Join(cats[..n], ratings);
      forall j | 0 <= j < |m|
        ensures 0 <= m[j] < |cats| && cats[m[j]].key in ratings
        ensures r[j] == RatingRecord(cats[m[j]].name, ratings[cats[m[j]].key])
      {
        if j < |m'| {
          assert m[j] == m'[j] && r[j] == r'[j];
          assert cats[m[j]] == cats[..n][m[j]];
        }
      }
    }
  }

  /** No record at all exactly when no configured category has a rating. */
  lemma JoinEmptyIff(cats: seq<Category>, ratings: map<string, real>)
    ensures Join(cats, ratings) == [] <==> forall i :: 0 <= i < |cats| ==> cats[i].key !in ratings
  {
  }

  /** Ratings under keys that are not configured categories are ignored. */
  lemma {:induction false} JoinIgnoresUnknownKeys(cats: seq<Category>, ratings: map<string, real>, extra: map<string, real>)
    requires forall i :: 0 <= i < |cats| ==> cats[i].key !in extra
    ensures Join(cats, ratings + extra) == Join(cats, ratings)
  {
    if cats != [] {
      var n := |cats| - 1;
      JoinIgnoresUnknownKeys(cats[..n], ratings, extra);
    }
  }

  /** The foreach of set_ratings: walks the categories in order, skips those
      without a rating, appends a record for each of the others and adds its
      rating to the running total. */
  method CollectRatings(cats: seq<Category>, ratings: map<string, real>)
    returns (records: seq<RatingRecord>, total: real)
    ensures records == Join(cats, ratings)
    ensures total == Total(records)
  {
    records, total := [], 0.0;
    for n := 0 to |cats|
      invariant records == Join(cats[..n], ratings)
      invariant total == Total(records)
    {
      assert cats[..n + 1] == cats[..n] + [cats[n]];
      TotalOfJoin(cats[..n], ratings, cats[n]);
      if cats[n].key !in ratings {
        continue;
      }
      records := records + [RatingRecord(cats[n].name, ratings[cats[n].key])];
      total := total + ratings[cats[n].key];
    }
    assert cats[..|cats|] == cats;
  }

  /** The running total of the emitted records is the sum of the matched
      categories' ratings, one term per matched category. */
  lemma {:induction false} TotalOfJoin(cats: seq<Category>, ratings: map<string, real>, c: Category)
    ensures Total(Join(cats + [c], ratings)) ==
      Total(Join(cats, ratings)) + (if c.key in ratings then ratings[c.key] else 0.0)
  {
    assert (cats + [c])[..|cats|] == cats;
    var r := Join(cats, ratings);
    if c.key in ratings {
      assert Join(cats + [c], ratings) == r + [RatingRecord(c.name, ratings[c.key])];
    } else {
      assert Join(cats + [c], ratings) == r;
    }
  }

  /** A total of ratings that each lie in [lo, hi] lies in [count * lo, count * hi]. */
  lemma {:induction false} TotalBounds(records: seq<RatingRecord>, lo: real, hi: real)
    requires forall k :: 0 <= k < |records| ==> lo <= records[k].rating <= hi
    ensures |records| as real * lo <= Total(records) <= |records| as real * hi
  {
    if records != [] {
      var n := |records| - 1;
      TotalBounds(records[..n], lo, hi);
      assert records[..n][0..] == records[..n];
      assert (n + 1) as real * lo == n as real * lo + lo;
      assert (n + 1) as real * hi == n as real * hi + hi;
    }
  }

  /** When every rating lies on a scale with whole-number ends, so does the
      stored average, rounding included. */
  lemma AverageWithin(records: seq<RatingRecord>, lo: int, hi: int)
    requires |records| > 0
    requires forall k :: 0 <= k < |records| ==> lo as real <= records[k].rating <= hi as real
    ensures lo as real <= Average(records) <= hi as real
  {
    var n := |records| as real;
    var t := Total(records);
    TotalBounds(records, lo as real, hi as real);
    assert lo as real <= t / n <= hi as real by {
      assert n * lo as real <= t <= n * hi as real;
      assert (n * lo as real) / n == lo as real;
      assert (n * hi as real) / n == hi as real;
    }
    Round2Within(t / n, lo, hi);
  }

  /** The average always lies within half a hundredth of the exact mean. */
  lemma AverageClose(records: seq<RatingRecord>)
    requires |records| > 0
    ensures -0.005 <= Average(records) - Total(records) / |records| as real <= 0.005
  {
  }

  /** Two configured categories rated 4 and 5, plus a rating under an unknown
      key: two records, in configured order. */
  lemma ExampleJoin()
    ensures Join([Category("plot", "Plot"), Category("characters", "Characters")],
                 map["plot" := 4.0, "characters" := 5.0, "other" := 1.0])
         == [RatingRecord("Plot", 4.0), RatingRecord("Characters", 5.0)]
  {
  }

  /** Ratings 4 and 5 average to 4.5. */
  lemma ExampleAverage()
    ensures Average([RatingRecord("Plot", 4.0), RatingRecord("Characters", 5.0)]) == 4.5
  {
    var recs := [RatingRecord("Plot", 4.0), RatingRecord("Characters", 5.0)];
    assert recs[..1] == [RatingRecord("Plot", 4.0)];
    assert recs[..1][..0] == [];
    assert Total(recs[..1]) == Total(recs[..1][..0]) + 4.0;
    assert Total(recs) == Total(recs[..1]) + 5.0;
    assert Average(recs) == Round2(4.5);
    assert 4.5 * 100.0 == 450 as real;
    RoundHalfAwayOfInt(450);
  }
}
