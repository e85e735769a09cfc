# Rating Report card — a Dafny model

The Rating Report plugin shows a per-post "report card". It lists a post's
ratings by category (for example "Plot: 4", "Characters: 5") and an overall
average. Each rating, and the average, is shown either as the number itself
or as a row of Font Awesome star icons.

This project models the class that does this work, `Rating_Report_Card`
(`includes/class-rating-report-card.php`):

- **Aggregation** (`set_ratings`). It walks the configured categories in
  their configured order. It keeps the categories whose key has a stored
  rating and emits a `{category, rating}` record for each. It adds up a
  running total and stores `round(total / count, 2)` as the average. With no
  matching record, that division has no value.
- **Star rows** (`get_font_awesome_rating`). It writes full stars from a loop
  that counts the value down. One half star is written after the pass that
  starts at exactly 1.5, or on its own for a value strictly between 0 and 1.
  A second loop then writes one empty star per whole unit the value falls
  short of the maximum.
- **Selection** (`get_rating`, `get_formatted_average_rating`, `set_type`).
  These choose between the plain number and a star row. For the overall
  average they first round it down to a half star, or to the nearest whole
  star when half stars are off. An
  empty card type falls back to the configured default.

Files, one module each:

- `wrappers.dfy`: `Option` (PHP's null) and `Result` (the errors the card
  raises).
- `php_semantics.dfy`: the PHP built-ins the class relies on, over exact
  reals and strings. These are `round()` (halves away from zero),
  `round($x, 2)`, `empty()` on a string (true for `''` and `'0'`), the
  case-insensitive lookup of method names, and `str_replace` of one
  character.
- `options.dfy`: the plugin settings read through `rating_report_get_option`.
  Each setting is stored or absent. An absent one yields the default written
  at its call site.
- `aggregation.dfy`: the join of categories with ratings, the running total,
  the average, and the foreach loop as a method.
- `star_row.dfy`: the icons of a star row in closed form, their markup, and a
  parser that reads the markup back.
- `report_card.dfy`: the class `Card`. Its fields are the ones the source
  updates in place. Its methods have the source's loops. Pure functions give
  the display choices.

Numbers are `real`, so every star count is exact. Ratings map keys are
strings. Host lookups are parameters: the post's `rating_report` meta, the
settings, and the default category list. Every `apply_filters` call returns
its value unchanged, so each is modelled as the identity.

Details of the code that are easy to get wrong:

- A half star appears only for a fractional part of exactly one half (and
  for any value strictly between 0 and 1). Other fractions are dropped. For
  example, 1.3 gives one full star, no half star and three empty stars
  (`StarRow.ShortRowForOnePointThree`).
- The empty-star count is `floor(max - value)` when that is at least 1, and
  none otherwise: the shortfall to the maximum, counted in whole units.
- Each record holds a category name and a rating, and nothing else.
- The star row is the icon tags alone, with no text before them.
- The star handler is selected by the type name `font_awesome`, in any case
  of letters.
- With half stars on, the overall average is rounded down to a half
  (`floor(avg * 2) / 2` at line 157). So 4.8 is drawn as 4.5, although the
  doc comment at lines 137-140 speaks of the nearest half value.

## Model

| member | source | states |
|---|---|---|
| `PhpSemantics.RoundHalfAway` | includes/class-rating-report-card.php:157 | `round()` returns the integer nearest to its argument; a tie goes away from zero |
| `PhpSemantics.RoundHalfAwayMonotone` | includes/class-rating-report-card.php:157 | `round()` never decreases as its argument grows |
| `PhpSemantics.RoundHalfAwayOfInt` | includes/class-rating-report-card.php:157 | `round()` leaves whole numbers unchanged |
| `PhpSemantics.Round2Close` | includes/class-rating-report-card.php:311 | `round($x, 2)` differs from `x` by at most 0.005 |
| `PhpSemantics.Round2Within` | includes/class-rating-report-card.php:311 | `round($x, 2)` keeps a value inside any range whose ends are whole numbers |
| `PhpSemantics.ReplaceCharAt` | includes/class-rating-report-card.php:354 | `str_replace` of one character keeps the length, replaces every occurrence and changes nothing else |
| `PhpSemantics.ReplaceCharRoundTrip` | includes/class-rating-report-card.php:354 | replacing back undoes the replacement when the new character did not already occur |
| `Options.DefaultsWhenUnset` | includes/class-rating-report-card.php:101-104 | with nothing stored, the settings give the defaults written at their call sites: 'numbers' for the rating type and no half stars and maximum 5 (lines 101-104), 'numbers' for the overall type (line 151), 'table' for the display type (line 180), and the default categories (line 289) |
| `Aggregation.Matched` | includes/class-rating-report-card.php:294-297 | the positions of the categories that have a rating, strictly ascending; a position is listed if and only if its key has a rating |
| `Aggregation.JoinMatches` | includes/class-rating-report-card.php:294-305 | exactly one record per configured category whose key has a rating, in configured order, with that category's name and that rating |
| `Aggregation.JoinEmptyIff` | includes/class-rating-report-card.php:294-310 | no record at all if and only if no configured category has a rating (the case where line 310 divides by zero) |
| `Aggregation.JoinIgnoresUnknownKeys` | includes/class-rating-report-card.php:294-297 | ratings under keys that are not configured categories do not change the records |
| `Aggregation.CollectRatings` | includes/class-rating-report-card.php:291-305 | the foreach loop emits exactly the joined records, and its running total is their total |
| `Aggregation.TotalOfJoin` | includes/class-rating-report-card.php:304 | each category adds its rating to the total if it has one, and nothing if not |
| `Aggregation.TotalBounds` | includes/class-rating-report-card.php:304 | ratings each in [lo, hi] give a total in [count * lo, count * hi] |
| `Aggregation.AverageWithin` | includes/class-rating-report-card.php:309-311 | ratings on a scale with whole-number ends give a stored average on that scale, after rounding |
| `Aggregation.AverageClose` | includes/class-rating-report-card.php:309-311 | the stored average is within 0.005 of the exact mean |
| `Aggregation.ExampleJoin` | includes/class-rating-report-card.php:294-302 | ratings for Plot and Characters plus an unknown key give the two records, Plot first |
| `Aggregation.ExampleAverage` | includes/class-rating-report-card.php:309-311 | ratings 4 and 5 average to 4.5 |
| `StarRow.LeadingIconOfTag` | includes/class-rating-report-card.php:243-260 | the three icon tags are prefix-free: each tag is recognised as itself |
| `StarRow.ParseMarkup` | includes/class-rating-report-card.php:243-260 | parsing the written markup gives back exactly the icons written |
| `StarRow.ParseIconsSound` | includes/class-rating-report-card.php:243-260 | a string the parser accepts is exactly the markup of the icons it reads |
| `StarRow.MarkupInjective` | includes/class-rating-report-card.php:243-260 | two rows with the same markup have the same icons |
| `StarRow.StarsFillScale` | includes/class-rating-report-card.php:240-262 | a half-unit value in [0, max] is drawn with exactly max icons |
| `StarRow.ShortRowForOnePointThree` | includes/class-rating-report-card.php:240-262 | 1.3 on a scale of 5 is one full and three empty stars: no half star, and the row is one icon short |
| `StarRow.HalfStarBelowOne` | includes/class-rating-report-card.php:250-262 | 0.3 on a scale of 5 is one half star and four empty stars |
| `StarRow.ThreeAndAHalf` | includes/class-rating-report-card.php:240-262 | 3.5 on a scale of 5 is written as three full, one half and one empty star tag |
| `ReportCard.HandlerForIgnoresCase` | includes/class-rating-report-card.php:203 | the handler that `call_user_func` reaches for a type depends only on the lower-cased type, since PHP method names ignore case |
| `ReportCard.HandlerForMixedCase` | includes/class-rating-report-card.php:160 | the type 'Font_Awesome' reaches `get_font_awesome_rating` |
| `ReportCard.RatingsSourceFallback` | includes/class-rating-report-card.php:284-287 | ratings passed in are used as given; with none passed in, the post meta is used; with neither, no record is joined |
| `ReportCard.SetTypeFallback` | includes/class-rating-report-card.php:178-185 | a non-empty type is kept; an empty one (`''` or `'0'`) becomes the 'display_type' setting, by default 'table'; resolving twice equals resolving once |
| `ReportCard.OverallStarValue` | includes/class-rating-report-card.php:157 | with half stars on, the value drawn is a half step, never above the average and less than 0.5 below it; with half stars off, it is the whole number nearest the average, a tie going away from zero (4.5 gives 5) |
| `ReportCard.OverallStarsFillScale` | includes/class-rating-report-card.php:153-161 | an average in [0, max] gives an overall row of exactly max icons, half stars on or off |
| `ReportCard.OverallRowOnScale` | includes/class-rating-report-card.php:282-311 | when at least one configured category has a rating and every stored rating of a configured category is in [0, max], the overall row of the stored average has exactly max icons |
| `ReportCard.RatingClass` | includes/class-rating-report-card.php:354 | the row's class suffix has the rating's length, turns every '.' into '-', and keeps every other character in place |
| `ReportCard.RatingClassReversible` | includes/class-rating-report-card.php:354 | a printed rating without '-' is recovered from its class suffix |
| `ReportCard.Card.constructor` | includes/class-rating-report-card.php:96-106 | the card has the post id, the resolved type, the rating type, half-star flag and maximum from the settings, no ratings and a null average |
| `ReportCard.Card.SetType` | includes/class-rating-report-card.php:178-185 | stores and returns the resolved type and changes no other field |
| `ReportCard.Card.GetRating` | includes/class-rating-report-card.php:198-208 | under 'numbers' the value itself; an error exactly when no handler matches; under 'font_awesome' markup that parses back to the value's star row; under 'images' null |
| `ReportCard.Card.GetFormattedAverageRating` | includes/class-rating-report-card.php:148-165 | under 'numbers' the stored average unchanged (null if unset); an error exactly when no handler matches; under 'font_awesome' markup that parses back to the star row of the rounded average; under 'images' null |
| `ReportCard.Card.GetFontAwesomeRating` | includes/class-rating-report-card.php:234-267 | the markup written is that of the full stars, the half star if any, then the empty stars, for the card's maximum |
| `ReportCard.Card.FilledStars` | includes/class-rating-report-card.php:236-252 | the countdown loop writes floor(v) full stars for v >= 1 and none below 1, then one half star exactly for x.5 values of at least 1.5 and for values strictly between 0 and 1 |
| `ReportCard.Card.EmptyStars` | includes/class-rating-report-card.php:254-263 | the second countdown loop writes floor(max - v) empty stars when max - v >= 1, and none otherwise |
| `ReportCard.Card.SetRatings` | includes/class-rating-report-card.php:282-315 | stores the joined records of the ratings passed in (or the post meta, or none); with at least one record, stores round(total / count, 2) as the average and returns the records; with none, fails with NoRatingsAvailable and leaves the average as it was |

## Left out

- `assets/js/migrator.js` is not part of this model. It is a browser loop of AJAX requests with DOM updates and no logic of its own.
- `includes/load-assets.php` is not part of this model. It registers stylesheets and pastes settings into CSS.
- `render`, the HTML of `render_table`, and `render_graph` (empty) are left out. They are output buffering and markup. Only the row class at line 354 is modelled.
- `get_images_rating` has an empty body and returns null; the model returns `Blank` for it.
- `get_type` and `get_average_rating` return a field through an identity filter. The model reads the fields `cardType` and `averageRating` directly.
- `ReportCard.Card.constructor`: PHP leaves `$ratings` null until `set_ratings` runs; the model starts it as the empty sequence. Nothing in the model reads it before `SetRatings`, and `render`, which would, is left out.
- `get_post` and the `$post` field are left out, because nothing in the core reads them.
- The `$rating_scale` field (`rating_report_get_rating_scale`) is left out, because nothing in this file reads it.
- Host lookups become parameters: `get_post_meta` (an `Option` map, `None` when the meta is not an array), `rating_report_get_option` (the `Settings` value), and `rating_report_get_default_categories` (a sequence).
- `esc_html` and `sanitize_html_class` are taken as the identity.
- `apply_filters` is the identity everywhere. So the 'fill-up-empty' filter is always true, and the icon classes are the defaults.
- Dynamic dispatch (`call_user_func` on `get_<type>_rating`) is an explicit handler choice. PHP's case-insensitive method names are modelled. Any other type is `UnsupportedDisplayType`, including names that would reach other `get_*_rating` methods (such as 'average'). This follows PHP 8, where `call_user_func` on a missing method throws a TypeError. PHP 7's warning and null result are not modelled.
- Division by zero at line 310 follows PHP 8's DivisionByZeroError. The model returns `Err(NoRatingsAvailable)` after storing the records. PHP 7's warning and NAN average (0/0) are not modelled; PHP 5 returned false.
- PHP floats are exact reals here. `round()`'s pre-rounding of binary floats is not modelled. With exact reals both countdown loops (lines 241 and 258) end for every value; in PHP, `$i--` leaves a float of 2^54 or more (or INF) unchanged, so there the loop would not end.
- `RatingClass` takes the rating as already printed. PHP's conversion of a float to a string is not modelled.
- Ratings map keys are strings. PHP's folding of numeric string keys to integers is not modelled.
- The stored ratings are trusted to be numbers, as the source trusts them. No validation is modelled.
- The two loops of `get_font_awesome_rating` are the methods `FilledStars` and `EmptyStars`, and `GetFontAwesomeRating` joins their two strings. The source appends to one string throughout, which gives the same result. Update of one shared string in place is not modelled.
