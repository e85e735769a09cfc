/** The star strings of get_font_awesome_rating: which icons appear for a value,
    stated in closed form, and the markup they are written as. */
module StarRow {
  import opened Wrappers

  datatype Icon = Full | Half | Empty

  /** The markup of one icon, with the default Font Awesome classes
      ('fa fa-star', 'fa fa-star-half-full', 'fa fa-star-o'). */
  function Tag(x: Icon): string {
    match x
    case Full => "<i class=\"fa fa-star\"></i>"
    case Half => "<i class=\"fa fa-star-half-full\"></i>"
    case Empty => "<i class=\"fa fa-star-o\"></i>"
  }

  /** The icons written one after another. */
  function Markup(icons: seq<Icon>): string {
    if icons == [] then "" else Tag(icons[0]) + Markup(icons[1..])
  }

  function Repeat(x: Icon, n: nat): (r: seq<Icon>)
    ensures |r| == n && forall k :: 0 <= k < n ==> r[k] == x
  {
    seq(n, _ => x)
  }

  /** Full stars: one per whole unit of a value of at least 1, none below 1. */
  function FullCount(v: real): nat {
    if v >= 1.0 then v.Floor else 0
  }

  /** A half star follows the full stars for a value of at least 1 whose
      fractional part is exactly one half, and stands alone for a value strictly
      between 0 and 1. */
  predicate HasHalf(v: real) {
    (v >= 1.0 && v - v.Floor as real == 0.5) || (0.0 < v < 1.0)
  }

  /** Empty stars: one per whole unit that the value falls short of the maximum. */
  function EmptyCount(v: real, max: int): nat {
    if max as real - v >= 1.0 then (max as real - v).Floor else 0
  }

  /** The full stars and the half star, if any, that precede the empty ones. */
  function FilledPart(v: real): seq<Icon> {
    Repeat(Full, FullCount(v)) + (if HasHalf(v) then [Half] else [])
  }

  /** The icons for a value on a scale of max: full stars, at most one half star,
      then empty stars. */
  function Stars(v: real, max: int): seq<Icon> {
    FilledPart(v) + Repeat(Empty, EmptyCount(v, max))
  }

  lemma RepeatSnoc(x: Icon, n: nat)
    ensures Repeat(x, n) + [x] == Repeat(x, n + 1)
  {
  }

  /** A value counted down by whole units until it drops below 1 took its floor
      in steps. */
  lemma CountedDown(v: real, k: int)
    requires 0.0 <= v - k as real < 1.0
    ensures k == v.Floor
  {
  }

  /** The markup of k full stars, followed by a half star when half is set. */
  function FullThenHalf(k: nat, half: bool): string {
    Markup(Repeat(Full, k) + (if half then [Half] else []))
  }

  /** One more pass of the full-star loop appends a full star, and a half star
      when it is the last. */
  lemma FullThenHalfStep(k: nat)
    ensures FullThenHalf(k + 1, false) == FullThenHalf(k, false) + Tag(Full)
    ensures FullThenHalf(k + 1, true) == FullThenHalf(k, false) + Tag(Full) + Tag(Half)
  {
    assert Repeat(Full, k) + [] == Repeat(Full, k);
    assert Repeat(Full, k + 1) + [] == Repeat(Full, k + 1);
    MarkupRepeatSnoc(Full, k);
    MarkupConcat(Repeat(Full, k + 1), [Half]);
    assert Markup([Half]) == Tag(Half) + Markup([]);
  }

  /** When the countdown from a value of at least 1 stops, the icons written
      are the value's full stars and, after the pass that started at 1.5, its
      half star. */
  lemma FullCountdownDone(v: real, i: real, k: nat)
    requires v >= 1.0 && i == v - k as real && 0.0 <= i < 1.0
    ensures Markup(FilledPart(v)) == FullThenHalf(k, i == 0.5)
  {
  }

  lemma MarkupRepeatSnoc(x: Icon, n: nat)
    ensures Markup(Repeat(x, n + 1)) == Markup(Repeat(x, n)) + Tag(x)
  {
    RepeatSnoc(x, n);
    MarkupConcat(Repeat(x, n), [x]);
    assert Markup([x]) == Tag(x) + Markup([]);
  }

  /** A value in half units: twice it is a whole number. */
  predicate IsHalfStep(v: real) {
    (2.0 * v).Floor as real == 2.0 * v
  }

  lemma {:induction false} MarkupConcat(a: seq<Icon>, b: seq<Icon>)
    ensures Markup(a + b) == Markup(a) + Markup(b)
  {
    if a == [] {
      assert a + b == b;
    } else {
      assert (a + b)[0] == a[0] && (a + b)[1..] == a[1..] + b;
      MarkupConcat(a[1..], b);
    }
  }

  /** The icon whose markup the string begins with, if any. */
  function LeadingIcon(s: string): (r: Option<Icon>)
    ensures r.Some? ==> Tag(r.value) <= s
  {
    if Tag(Full) <= s then Some(Full)
    else if Tag(Half) <= s then Some(Half)
    else if Tag(Empty) <= s then Some(Empty)
    else None
  }

  /** Reads icon markup back into icons; None for anything else. */
  function ParseIcons(s: string): Option<seq<Icon>>
    decreases |s|
  {
    if s == [] then Some([])
    else match LeadingIcon(s)
      case None => None
      case Some(x) =>
        match ParseIcons(s[|Tag(x)|..])
        case None => None
        case Some(rest) => Some([x] + rest)
  }

  /** No icon's markup is a prefix of another's, so a tag is recognised as itself. */
  lemma LeadingIconOfTag(x: Icon, rest: string)
    ensures LeadingIcon(Tag(x) + rest) == Some(x)
  {
    var s := Tag(x) + rest;
    assert Tag(x) <= s by { assert s[..|Tag(x)|] == Tag(x); }
    if x != Full {
      assert s[20] == '-' && Tag(Full)[20] == '"';
    }
    if x == Empty {
      assert s[21] == 'o' && Tag(Half)[21] == 'h';
    }
  }

  /** The markup determines the icons: parsing it gives them back. */
  lemma {:induction false} ParseMarkup(icons: seq<Icon>)
    ensures ParseIcons(Markup(icons)) == Some(icons)
  {
    if icons != [] {
      var x := icons[0];
      var s := Markup(icons);
      LeadingIconOfTag(x, Markup(icons[1..]));
      assert s[|Tag(x)|..] == Markup(icons[1..]);
      ParseMarkup(icons[1..]);
      assert s != [] by { assert |s| >= |Tag(x)| > 0; }
      assert icons == [x] + icons[1..];
    }
  }

  /** A string that parses starts with the tag of its first icon, and the rest
      parses to the remaining icons. */
  lemma ParseIconsStep(s: string, icons: seq<Icon>)
    requires s != [] && ParseIcons(s) == Some(icons)
    ensures LeadingIcon(s).Some? && icons != [] && icons[0] == LeadingIcon(s).value
    ensures ParseIcons(s[|Tag(icons[0])|..]) == Some(icons[1..])
  {
  }

  lemma MarkupCons(icons: seq<Icon>)
    requires icons != []
    ensures Markup(icons) == Tag(icons[0]) + Markup(icons[1..])
  {
  }

  /** Only icon markup parses: whatever parses is the markup of the icons read. */
  lemma {:induction false} ParseIconsSound(s: string, icons: seq<Icon>)
    requires ParseIcons(s) == Some(icons)
    ensures s == Markup(icons)
    decreases |s|
  {
    if s != [] {
      ParseIconsStep(s, icons);
      var t := Tag(icons[0]);
      ParseIconsSound(s[|t|..], icons[1..]);
      assert s == t + s[|t|..] by { assert s[..|t|] == t; }
      MarkupCons(icons);
    }
  }

  lemma MarkupInjective(a: seq<Icon>, b: seq<Icon>)
    requires Markup(a) == Markup(b)
    ensures a == b
  {
    ParseMarkup(a);
    ParseMarkup(b);
  }

  /** For a half-unit value between 0 and a whole-number maximum, the full, half
      and empty stars add up to exactly the maximum. */
  lemma StarsFillScale(v: real, max: int)
    requires IsHalfStep(v) && 0.0 <= v <= max as real
    ensures |Stars(v, max)| == max
  {
    var f := v.Floor;
    var frac := v - f as real;
    assert frac == 0.0 || frac == 0.5 by {
      var k := (2.0 * v).Floor;
      assert 2.0 * frac == (k - 2 * f) as real;
      assert 0 <= k - 2 * f < 2;
    }
    var e := max as real - v;
    if frac == 0.0 {
      assert !HasHalf(v);
      assert e == (max - f) as real;
      assert EmptyCount(v, max) == max - f;
      assert FullCount(v) == f;
    } else {
      assert HasHalf(v);
      assert e == (max - f - 1) as real + 0.5;
      assert e.Floor == max - f - 1;
      assert EmptyCount(v, max) == max - f - 1;
      assert FullCount(v) == f;
    }
  }

  /** A value that is not a half step can leave the row short: 1.3 on a scale
      of 5 shows one full star, no half star and three empty stars. */
  lemma ShortRowForOnePointThree()
    ensures Stars(1.3, 5) == [Full, Empty, Empty, Empty]
  {
  }

  /** Below 1 any positive value shows a half star: 0.3 on a scale of 5 shows a
      half star and four empty stars. */
  lemma HalfStarBelowOne()
    ensures Stars(0.3, 5) == [Half, Empty, Empty, Empty, Empty]
  {
  }

  /** 3.5 on a scale of 5: three full, one half, one empty. */
  lemma ThreeAndAHalf()
    ensures Markup(Stars(3.5, 5)) == Tag(Full) + Tag(Full) + Tag(Full) + Tag(Half) + Tag(Empty)
  {
  }
}
