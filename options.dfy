/** The plugin settings the card reads through rating_report_get_option: each is
    either stored or absent, and an absent one yields the default the caller
    passes. */
module Options {
  import opened Wrappers
  import opened Aggregation

  datatype Settings = Settings(
    displayType: Option<string>,           // 'display_type'
    ratingType: Option<string>,            // 'rating_type'
    ratingTypeOverall: Option<string>,     // 'rating_type_overall'
    halfStars: Option<bool>,               // 'half_stars'
    maxRating: Option<int>,                // 'max_rating'
    categories: Option<seq<Category>>)     // 'categories'
  {
    function DisplayType(): string { displayType.GetOr("table") }
    function RatingType(): string { ratingType.GetOr("numbers") }
    function RatingTypeOverall(): string { ratingTypeOverall.GetOr("numbers") }
    function HalfStars(): bool { halfStars.GetOr(false) }
    function MaxRating(): int { maxRating.GetOr(5) }
    /** The configured categories, or the plugin's default list when none are stored. */
    function Categories(defaults: seq<Category>): seq<Category> { categories.GetOr(defaults) }
  }

  /** With nothing stored, every lookup yields the default written at its call site. */
  lemma DefaultsWhenUnset(defaults: seq<Category>)
    ensures var s := Settings(None, None, None, None, None, None);
      s.DisplayType() == "table" && s.RatingType() == "numbers" &&
      s.RatingTypeOverall() == "numbers" && !s.HalfStars() && s.MaxRating() == 5 &&
      s.Categories(defaults) == defaults
  {
  }
}
