/** Rating_Report_Card: the object a post's rating report is rendered from. It
    holds the card type, the aggregated ratings with their average, and the
    display settings read when it is built; it renders single ratings and the
    overall average as plain numbers or as Font Awesome star rows. */
module ReportCard {
  import opened Wrappers
  import opened PhpSemantics
  import opened Aggregation
  import opened Options
  import opened StarRow

  datatype CardError =
    | NoRatingsAvailable                      // the average divides by zero records
    | UnsupportedDisplayType(name: string)    // no get_<name>_rating method exists

  /** What the card hands back for display: the number itself, star markup, or
      PHP's null (the images handler has no body yet). */
  datatype Rendered = Plain(value: real) | Html(html: string) | Blank

  /** The get_<type>_rating methods the card has; PHP finds them whatever the
      case of the type's letters. */
  datatype Handler = FontAwesomeHandler | ImagesHandler

  function HandlerFor(displayType: string): Option<Handler> {
    var name := Lower(displayType);
    if name == "font_awesome" then Some(FontAwesomeHandler)
    else if name == "images" then Some(ImagesHandler)
    else None
  }

  /** PHP looks up get_<type>_rating whatever the case of the type's letters:
      only the lower-cased name matters. */
  lemma HandlerForIgnoresCase(displayType: string)
    ensures HandlerFor(displayType) == HandlerFor(Lower(displayType))
  {
    LowerIdempotent(displayType);
  }

  /** A mixed-case 'Font_Awesome' reaches the Font Awesome handler. */
  lemma HandlerForMixedCase()
    ensures HandlerFor("Font_Awesome") == Some(FontAwesomeHandler)
  {
    var s := "Font_Awesome";
    var l := Lower(s);
    assert l[0] == 'f' && l[5] == 'a';
    forall i | 0 <= i < |s| && i != 0 && i != 5 ensures l[i] == s[i] {
      assert !('A' <= s[i] <= 'Z');
    }
    assert l == "font_awesome";
  }

  /** The type set_type stores: the given one, or the 'display_type' setting
      when the given one is empty in PHP's sense. */
  function ResolveCardType(t: string, settings: Settings): string {
    if IsPhpEmpty(t) then settings.DisplayType() else t
  }

  /** set_type keeps a non-empty type, falls back to the setting (by default
      'table') for an empty one, and resolving again changes nothing. */
  lemma SetTypeFallback(t: string, settings: Settings)
    ensures !IsPhpEmpty(t) ==> ResolveCardType(t, settings) == t
    ensures IsPhpEmpty(t) ==> ResolveCardType(t, settings) == settings.DisplayType()
    ensures IsPhpEmpty(t) && settings.displayType.None? ==> ResolveCardType(t, settings) == "table"
    ensures ResolveCardType(ResolveCardType(t, settings), settings) == ResolveCardType(t, settings)
  {
  }

  /** The ratings set_ratings joins: the ones passed in, or when none are, the
      post's 'rating_report' meta if that is an array, else none at all. */
  function RatingsSource(given: map<string, real>, postMeta: Option<map<string, real>>): map<string, real> {
    if |given| == 0 then postMeta.GetOr(map[]) else given
  }

  /** Ratings passed in win; with none passed in, the post meta is used, and
      without meta there is nothing to join. */
  lemma RatingsSourceFallback(given: map<string, real>, postMeta: Option<map<string, real>>, cats: seq<Category>)
    ensures |given| > 0 ==> RatingsSource(given, postMeta) == given
    ensures |given| == 0 && postMeta.Some? ==> RatingsSource(given, postMeta) == postMeta.value
    ensures |given| == 0 && postMeta.None? ==> Join(cats, RatingsSource(given, postMeta)) == []
  {
    JoinEmptyIff(cats, map[]);
  }

  /** The value the overall star row is drawn for: the average rounded down to a
      half when half stars are on, else rounded to the nearest whole number. */
  function OverallStarValue(average: real, halfStars: bool): (v: real)
    ensures halfStars ==> IsHalfStep(v) && v <= average < v + 0.5
    ensures !halfStars && average >= 0.0 ==> v.Floor as real == v && average - 0.5 < v <= average + 0.5
    ensures !halfStars && average < 0.0 ==> v.Floor as real == v && average - 0.5 <= v < average + 0.5
  {
    if halfStars then (average * 2.0).Floor as real / 2.0 else RoundHalfAway(average) as real
  }

  /** An average on the scale is drawn as exactly as many icons as the scale has
      points, with half stars on or off. */
  lemma OverallStarsFillScale(average: real, halfStars: bool, max: int)
    requires 0.0 <= average <= max as real
    ensures |Stars(OverallStarValue(average, halfStars), max)| == max
  {
    var v := OverallStarValue(average, halfStars);
    if halfStars {
      assert 0.0 <= v by { assert (average * 2.0).Floor >= 0; }
    } else {
      RoundHalfAwayMonotone(0.0, average);
      RoundHalfAwayMonotone(average, max as real);
      RoundHalfAwayOfInt(0);
      RoundHalfAwayOfInt(max);
      assert (2.0 * v).Floor == 2 * v.Floor;
    }
    StarsFillScale(v, max);
  }

  /** When every stored rating of every configured category lies on the
      scale 0..max, the overall star row has exactly max icons, half stars on
      or off. */
  lemma OverallRowOnScale(cats: seq<Category>, ratings: map<string, real>, halfStars: bool, max: int)
    requires Join(cats, ratings) != []
    requires forall i :: 0 <= i < |cats| && cats[i].key in ratings ==>
      0.0 <= ratings[cats[i].key] <= max as real
    ensures |Stars(OverallStarValue(Average(Join(cats, ratings)), halfStars), max)| == max
  {
    var records := Join(cats, ratings);
    JoinMatches(cats, ratings);
    forall k | 0 <= k < |records| ensures 0.0 <= records[k].rating <= max as real {
      var i := Matched(cats, ratings)[k];
      assert records[k].rating == ratings[cats[i].key];
    }
    AverageWithin(records, 0, max);
    OverallStarsFillScale(Average(records), halfStars, max);
  }

  /** The CSS class suffix of a table row: the printed rating with every '.'
      turned into '-', so '4.5' gives '4-5'. */
  function RatingClass(rating: string): (c: string)
    ensures |c| == |rating| && '.' !in c
    ensures forall i :: 0 <= i < |rating| && rating[i] != '.' ==> c[i] == rating[i]
    ensures forall i :: 0 <= i < |rating| && rating[i] == '.' ==> c[i] == '-'
  {
    ReplaceCharAt(rating, '.', '-');
    ReplaceChar(rating, '.', '-')
  }

  /** The class suffix of a rating printed without '-' gives the rating back. */
  lemma RatingClassReversible(rating: string)
    requires '-' !in rating
    ensures ReplaceChar(RatingClass(rating), '-', '.') == rating
  {
    ReplaceCharRoundTrip(rating, '.', '-');
  }

  class Card {
    var id: int
    var cardType: string
    var ratings: seq<RatingRecord>
    var averageRating: Option<real>     // null until set_ratings succeeds
    var ratingType: string
    var halfStars: bool
    var maximumRating: int

    /** A card for a post, of the given type (or the configured default). */
    constructor (postId: int, t: string, settings: Settings)
      ensures id == postId && cardType == ResolveCardType(t, settings)
      ensures ratingType == settings.RatingType()
      ensures halfStars == settings.HalfStars()
      ensures maximumRating == settings.MaxRating()
      ensures ratings == [] && averageRating == None
    {
      id := postId;
      ratings := [];
      averageRating := None;
      new;
      var _ := SetType(t, settings);
      ratingType := settings.RatingType();
      halfStars := settings.HalfStars();
      maximumRating := settings.MaxRating();
    }

    method SetType(t: string, settings: Settings) returns (r: string)
      modifies this`cardType
      ensures cardType == r && r == ResolveCardType(t, settings)
    {
      cardType := ResolveCardType(t, settings);
      r := cardType;
    }

    /** The handler get_<displayType>_rating applied to a value. */
    function RenderWith(displayType: string, value: real): Result<Rendered, CardError>
      reads this
    {
      match HandlerFor(displayType)
      case None => Err(UnsupportedDisplayType(displayType))
      case Some(FontAwesomeHandler) => Ok(Html(Markup(Stars(value, maximumRating))))
      case Some(ImagesHandler) => Ok(Blank)
    }

    /** The display of one category's rating. */
    function GetRating(value: real): (r: Result<Rendered, CardError>)
      reads this
      ensures ratingType == "numbers" ==> r == Ok(Plain(value))
      ensures r.Err? <==> ratingType != "numbers" && HandlerFor(ratingType).None?
      ensures ratingType != "numbers" && HandlerFor(ratingType) == Some(FontAwesomeHandler) ==> r.Ok? && r.value.Html?
      ensures ratingType != "numbers" && HandlerFor(ratingType) == Some(ImagesHandler) ==> r == Ok(Blank)
      ensures r.Ok? && r.value.Html? ==> ParseIcons(r.value.html) == Some(Stars(value, maximumRating))
    {
      if ratingType == "numbers" then Ok(Plain(value))
      else
        ParseMarkup(Stars(value, maximumRating));
        RenderWith(ratingType, value)
    }

    /** The display of the overall average: the average itself under 'numbers',
      otherwise the star row of the rounded average. */
    function GetFormattedAverageRating(settings: Settings): (r: Result<Rendered, CardError>)
      reads this
      ensures settings.RatingTypeOverall() == "numbers" ==>
        r == Ok(if averageRating.Some? then Plain(averageRating.value) else Blank)
      ensures r.Err? <==> settings.RatingTypeOverall() != "numbers" && HandlerFor(settings.RatingTypeOverall()).None?
      ensures settings.RatingTypeOverall() != "numbers" && HandlerFor(settings.RatingTypeOverall()) == Some(FontAwesomeHandler) ==>
        r.Ok? && r.value.Html?
      ensures settings.RatingTypeOverall() != "numbers" && HandlerFor(settings.RatingTypeOverall()) == Some(ImagesHandler) ==>
        r == Ok(Blank)
      ensures r.Ok? && r.value.Html? ==>
        ParseIcons(r.value.html) == Some(Stars(OverallStarValue(averageRating.GetOr(0.0), halfStars), maximumRating))
    {
      var displayType := settings.RatingTypeOverall();
      if displayType == "numbers" then
        Ok(if averageRating.Some? then Plain(averageRating.value) else Blank)
      else
        // PHP's null average counts as 0 in the rounding.
        var rounded := OverallStarValue(averageRating.GetOr(0.0), halfStars);
        ParseMarkup(Stars(rounded, maximumRating));
        RenderWith(displayType, rounded)
    }

    /** The Font Awesome star row for a value: the full and half stars, then
      the empty stars up to the maximum. */
    method GetFontAwesomeRating(value: real) returns (html: string)
      ensures html == Markup(Stars(value, maximumRating))
    {
      html := FilledStars(value);
      // The 'fill-up-empty' filter keeps its default, true.
      var empty := EmptyStars(value);
      html := html + empty;
      MarkupConcat(FilledPart(value), Repeat(Empty, EmptyCount(value, maximumRating)));
    }

    /** The first half of get_font_awesome_rating: one full star per pass of a
      loop counting the value down to below 1, with a half star after the pass
      that starts at exactly 1.5; a lone half star for a value strictly between
      0 and 1. */
    method FilledStars(value: real) returns (html: string)
      ensures html == Markup(FilledPart(value))
    {
      html := "";
      var i := value;
      if i >= 1.0 {
        ghost var k: nat := 0;
        assert FullThenHalf(0, false) == "" by { assert Repeat(Full, 0) + [] == []; }
        while i >= 1.0
          invariant i == value - k as real && 0.0 <= i
          invariant html == FullThenHalf(k, i == 0.5)
          decreases i
        {
          FullThenHalfStep(k);
          html := html + Tag(Full);
          if i == 1.5 {
            html := html + Tag(Half);
          }
          i := i - 1.0;
          k := k + 1;
        }
        FullCountdownDone(value, i, k);
      } else if i > 0.0 {
        html := html + Tag(Half);
        assert html == Markup(FilledPart(value)) by { assert FilledPart(value) == [Half]; }
      } else {
        assert FilledPart(value) == [];
      }
    }

    /** The second half of get_font_awesome_rating: one empty star per pass of
      a loop counting the shortfall to the maximum down to below 1. */
    method EmptyStars(value: real) returns (html: string)
      ensures html == Markup(Repeat(Empty, EmptyCount(value, maximumRating)))
    {
      html := "";
      var needed := maximumRating as real - value;
      if needed >= 1.0 {
        var j := needed;
        ghost var m: nat := 0;
        while j >= 1.0
          invariant j == needed - m as real && 0.0 <= j
          invariant html == Markup(Repeat(Empty, m))
          decreases j
        {
          MarkupRepeatSnoc(Empty, m);
          html := html + Tag(Empty);
          j := j - 1.0;
          m := m + 1;
        }
        CountedDown(needed, m);
      } else {
        assert Repeat(Empty, EmptyCount(value, maximumRating)) == [];
      }
    }

    /** Joins the configured categories with the ratings, stores the records and,
      when there is at least one, their average rounded to two places. With no
      record the division by their count fails after the records are stored. */
    method SetRatings(given: map<string, real>, postMeta: Option<map<string, real>>,
                      settings: Settings, defaultCategories: seq<Category>)
      returns (res: Result<seq<RatingRecord>, CardError>)
      modifies this`ratings, this`averageRating
      ensures ratings == Join(settings.Categories(defaultCategories), RatingsSource(given, postMeta))
      ensures res.Ok? <==> ratings != []
      ensures res.Ok? ==> res.value == ratings && averageRating == Some(Average(ratings))
      ensures res.Err? ==> res.error == NoRatingsAvailable && averageRating == old(averageRating)
    {
      var source := given;
      if |source| == 0 {
        source := if postMeta.Some? then postMeta.value else map[];
      }
      var finalArray, total := CollectRatings(settings.Categories(defaultCategories), source);
      ratings := finalArray;
      if |ratings| == 0 {
        return Err(NoRatingsAvailable);
      }
      averageRating := Some(Round2(total / |ratings| as real));
      res := Ok(ratings);
    }
  }
}
