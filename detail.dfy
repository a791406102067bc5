/** What the client reads from a model's own page, and how it fills the model with it.
    Each lookup the parser makes on the page (a tag search or a regular expression over
    the text) is given as its result: `None` when nothing matched. */
module Details {
  import opened Wrappers
  import opened Text
  import opened Models

  /** The two groups of the author pattern: the link and the raw link text. */
  datatype AuthorMatch = AuthorMatch(href: string, name: string)

  /** The lookups of a model page:
      - `h1`: the stripped text of the first `<h1>`;
      - `authorMatch`: the first match of the "Support <a href=...>name</a>" pattern;
      - `ogImage`: the content of the first `og:image` meta tag;
      - `imgSrcs`: the `src` of every `<img>`, in document order ("" when absent);
      - `viewsAt`, `downloadsAt`: for every bold "Views" / "Downloads" label (in any
        letter case), the text that follows it, its line break and the white space after
        that, up to the end of the page, in document order;
      - `posted`, `published`, `updated`, `category`: the raw captures of the date and
        category patterns;
      - `licenceText`: the stripped text of the parent of the first licence string;
      - `tagTexts`: the stripped texts of every `/tag/` link, in document order. */
  datatype DetailPage = DetailPage(
    h1: Option<string>, authorMatch: Option<AuthorMatch>, ogImage: Option<string>,
    imgSrcs: seq<string>, viewsAt: seq<string>, downloadsAt: seq<string>,
    posted: Option<string>, published: Option<string>, updated: Option<string>,
    category: Option<string>, licenceText: Option<string>, tagTexts: seq<string>)

  /** A page on which no lookup matches, with the given tag links. */
  function Unmatched(tagTexts: seq<string>): DetailPage
  {
    DetailPage(None, None, None, [], [], [], None, None, None, None, None, tagTexts)
  }

  // ------------------------------------------------------------------ counters

  /** The capture `(\d+)` of the views and downloads patterns at the start of `t`. */
  function CaptureAsWritten(t: string): (r: Option<string>)
    ensures r.Some? ==> r.value != [] && AllDigits(r.value) && StartsWith(t, r.value)
    ensures r.None? <==> t == [] || !IsDigit(t[0])
  {
    var e := DigitRunEnd(t, 0);
    if e == 0 then None else Some(t[..e])
  }

  /** `int(m.group(1).replace(',', ''))` on the capture as the patterns are written. */
  function CountAsWritten(t: string): Option<nat>
  {
    match CaptureAsWritten(t)
    case None => None
    case Some(c) => ParseDigits(RemoveChar(c, ','))
  }

  predicate IsDigitOrComma(c: char) {
    IsDigit(c) || c == ','
  }

  /** The end of the run of digits and commas starting at `from`. */
  function DigitCommaRunEnd(s: string, from: nat): (r: nat)
    requires from <= |s|
    ensures from <= r <= |s|
    ensures forall k :: from <= k < r ==> IsDigitOrComma(s[k])
    ensures r < |s| ==> !IsDigitOrComma(s[r])
    decreases |s| - from
  {
    if from == |s| || !IsDigitOrComma(s[from]) then from else DigitCommaRunEnd(s, from + 1)
  }

  /** The capture `([\d,]+)` the counter patterns evidently intend, as the comma removal
      after them shows. */
  function CaptureCorrected(t: string): (r: Option<string>)
    ensures r.Some? ==> r.value != [] && StartsWith(t, r.value)
    ensures r.None? <==> t == [] || !IsDigitOrComma(t[0])
  {
    var e := DigitCommaRunEnd(t, 0);
    if e == 0 then None else Some(t[..e])
  }

  /** `int(m.group(1).replace(',', ''))` on the corrected capture; `None` when there is no
      match or when `int` raises the ValueError the parser swallows (a capture of commas
      only). */
  function CountCorrected(t: string): Option<nat>
  {
    match CaptureCorrected(t)
    case None => None
    case Some(c) => ParseDigits(RemoveChar(c, ','))
  }

  /** The page shows "12,345" views; the pattern as written reads 12. */
  lemma CountAsWrittenTruncates()
    ensures CountAsWritten("12,345") == Some(12)
  {
    var t := "12,345";
    assert DigitRunEnd(t, 2) == 2;
    assert DigitRunEnd(t, 0) == 2;
    var c := t[..2];
    assert c == "12";
    assert c[..1] == "1";
    assert RemoveChar(c, ',') == c by {
      RemoveAbsentChar(c, ',');
    }
    assert DigitsValue(c[..1]) == 1 by {
      assert c[..1][..0] == [];
    }
  }

  /** `format(n, ",")` consists of digits and commas and starts with a digit. */
  lemma {:induction false} GroupDigitsChars(s: string)
    requires AllDigits(s)
    ensures forall i :: 0 <= i < |GroupDigits(s)| ==> IsDigitOrComma(GroupDigits(s)[i])
    ensures |s| > 0 ==> GroupDigits(s)[0] == s[0]
    decreases |s|
  {
    if |s| > 3 {
      var hi := s[..|s| - 3];
      assert AllDigits(hi) by {
        forall k | 0 <= k < |hi| ensures IsDigit(hi[k]) { assert hi[k] == s[k]; }
      }
      GroupDigitsChars(hi);
      var lo := s[|s| - 3..];
      assert forall k :: 0 <= k < |lo| ==> IsDigit(lo[k]) by {
        forall k | 0 <= k < |lo| ensures IsDigit(lo[k]) { assert lo[k] == s[|s| - 3 + k]; }
      }
    }
  }

  /** With the corrected capture, a counter shown as `format(n, ",")`, followed by anything
      that is neither a digit nor a comma, reads back as `n`. */
  lemma CountCorrectedRoundTrip(n: nat, rest: string)
    requires rest == [] || !IsDigitOrComma(rest[0])
    ensures CountCorrected(FormatThousands(n) + rest) == Some(n)
  {
    var d := Decimal(n);
    var f := FormatThousands(n);
    DecimalDigits(n);
    GroupDigitsChars(d);
    var t := f + rest;
    assert forall j :: 0 <= j < |f| ==> IsDigitOrComma(t[j]);
    assert |f| < |t| ==> t[|f|] == rest[0];
    DigitCommaRunEndAt(t, 0, |f|);
    assert t[..|f|] == f;
    ThousandsRoundTrip(n);
  }

  /** Below a thousand there is no separator, and both captures read the same number. */
  lemma CountsAgreeBelowThousand(n: nat, rest: string)
    requires n < 1000
    requires rest == [] || !IsDigitOrComma(rest[0])
    ensures CountAsWritten(FormatThousands(n) + rest) == Some(n)
    ensures CountCorrected(FormatThousands(n) + rest) == Some(n)
  {
    CountCorrectedRoundTrip(n, rest);
    var d := Decimal(n);
    DecimalDigits(n);
    DecimalBelowThousand(n);
    assert FormatThousands(n) == d;
    DigitRunEndOfDigits(d, rest);
    assert (d + rest)[..|d|] == d;
    assert ',' !in d by {
      forall k | 0 <= k < |d| ensures d[k] != ',' { assert IsDigit(d[k]); }
    }
    RemoveAbsentChar(d, ',');
    DecimalRoundTrip(n);
  }

  lemma DecimalBelowThousand(n: nat)
    requires n < 1000
    ensures |Decimal(n)| <= 3
  {
    if n >= 10 {
      var q := n / 10;
      assert Decimal(n) == Decimal(q) + [DigitChar(n % 10)];
      if q >= 10 {
        assert Decimal(q) == Decimal(q / 10) + [DigitChar(q % 10)];
      }
    }
  }

  /** The run of digits at the start of `d + rest` is `d` when `rest` does not start with
      a digit. */
  lemma DigitRunEndOfDigits(d: string, rest: string)
    requires AllDigits(d)
    requires rest == [] || !IsDigitOrComma(rest[0])
    ensures DigitRunEnd(d + rest, 0) == |d|
  {
    var t := d + rest;
    assert forall j :: 0 <= j < |d| ==> IsDigit(t[j]);
    assert |d| < |t| ==> t[|d|] == rest[0];
    DigitRunEndAt(t, 0, |d|);
  }

  /** A run of digits ends at the first index that holds no digit. */
  lemma {:induction false} DigitRunEndAt(s: string, from: nat, k: nat)
    requires from <= k <= |s|
    requires forall j :: from <= j < k ==> IsDigit(s[j])
    requires k == |s| || !IsDigit(s[k])
    ensures DigitRunEnd(s, from) == k
    decreases k - from
  {
    if from < k {
      DigitRunEndAt(s, from + 1, k);
    }
  }

  /** A run of digits and commas ends at the first index that holds neither. */
  lemma {:induction false} DigitCommaRunEndAt(s: string, from: nat, k: nat)
    requires from <= k <= |s|
    requires forall j :: from <= j < k ==> IsDigitOrComma(s[j])
    requires k == |s| || !IsDigitOrComma(s[k])
    ensures DigitCommaRunEnd(s, from) == k
    decreases k - from
  {
    if from < k {
      DigitCommaRunEndAt(s, from + 1, k);
    }
  }

  // ------------------------------------------------------------------ thumbnail

  /** The image fallback's test on a `src`: it mentions "project", or "thumbnail" in any
      letter case. */
  predicate IsThumbCandidate(src: string) {
    Contains(src, "project") || Contains(LowerAscii(src), "thumbnail")
  }

  /** The first image whose `src` passes the fallback's test. */
  function FirstThumbImage(srcs: seq<string>): (r: Option<nat>)
    ensures r.Some? ==> r.value < |srcs| && IsThumbCandidate(srcs[r.value])
    ensures r.Some? ==> forall j :: 0 <= j < r.value ==> !IsThumbCandidate(srcs[j])
    ensures r.None? ==> forall j :: 0 <= j < |srcs| ==> !IsThumbCandidate(srcs[j])
  {
    var P := (i: nat) => i < |srcs| && IsThumbCandidate(srcs[i]);
    assert forall i: nat :: P(i) == (i < |srcs| && IsThumbCandidate(srcs[i]));
    FindFirst(0, |srcs|, P)
  }

  /** The thumbnail after parsing: the `og:image` content, else the first candidate image,
      else the one the model had. */
  function DetailThumbnail(old_: string, p: DetailPage): string
  {
    if p.ogImage.Some? then p.ogImage.value
    else match FirstThumbImage(p.imgSrcs)
      case None => old_
      case Some(i) => p.imgSrcs[i]
  }

  // ------------------------------------------------------------------ the whole page

  function SetIf(old_: string, v: Option<string>): string
  {
    if v.Some? then Strip(v.value) else old_
  }

  /** The label whose following text the pattern's capture matches first: `re.search`
      moves on to a later label when the text after an earlier one does not match. */
  function FirstMatch(ts: seq<string>, capture: string -> Option<string>): (r: Option<nat>)
    ensures r.Some? ==> r.value < |ts| && capture(ts[r.value]).Some?
    ensures r.Some? ==> forall j :: 0 <= j < r.value ==> capture(ts[j]).None?
    ensures r.None? ==> forall j :: 0 <= j < |ts| ==> capture(ts[j]).None?
  {
    var P := (i: nat) => i < |ts| && capture(ts[i]).Some?;
    assert forall i: nat :: P(i) == (i < |ts| && capture(ts[i]).Some?);
    FindFirst(0, |ts|, P)
  }

  /** A counter after parsing: `int(m.group(1).replace(',', ''))` on the first match, or
      `old_` when no label matches or `int` raises the ValueError the parser swallows. */
  function ReadCount(old_: int, ts: seq<string>, capture: string -> Option<string>): int
  {
    match FirstMatch(ts, capture)
    case None => old_
    case Some(i) =>
      match ParseDigits(RemoveChar(capture(ts[i]).value, ','))
      case None => old_
      case Some(v) => v
  }

  /** With the pattern as written, the first label followed by a digit decides the counter:
      it becomes the number of the digits there, up to the first comma or other character. */
  lemma ReadCountAsWritten(old_: int, ts: seq<string>)
    ensures var m := FirstMatch(ts, CaptureAsWritten);
      && (m.None? ==> ReadCount(old_, ts, CaptureAsWritten) == old_)
      && (m.Some? ==>
            CountAsWritten(ts[m.value]).Some?
            && ReadCount(old_, ts, CaptureAsWritten) == CountAsWritten(ts[m.value]).value)
  {
    var m := FirstMatch(ts, CaptureAsWritten);
    if m.Some? {
      var c := CaptureAsWritten(ts[m.value]).value;
      assert ',' !in c by {
        forall k | 0 <= k < |c| ensures c[k] != ',' { assert IsDigit(c[k]); }
      }
      RemoveAbsentChar(c, ',');
    }
  }

  /** `_parse_model_page(html, model)` on a model whose contents are `d`, with the counters
      read by `capture`. */
  function ApplyDetailWith(d: ModelData, p: DetailPage, html: string, capture: string -> Option<string>)
    : ModelData
  {
    d.(
      title := if p.h1.Some? then p.h1.value else d.title,
      author := if p.authorMatch.Some? then Some(Author(Strip(p.authorMatch.value.name), p.authorMatch.value.href)) else d.author,
      thumbnail := DetailThumbnail(d.thumbnail, p),
      views := ReadCount(d.views, p.viewsAt, capture),
      downloads := ReadCount(d.downloads, p.downloadsAt, capture),
      posted := SetIf(d.posted, p.posted),
      published := SetIf(d.published, p.published),
      updated := SetIf(d.updated, p.updated),
      category := SetIf(d.category, p.category),
      licence := if p.licenceText.Some? then Take(p.licenceText.value, 100) else d.licence,
      tags := Take(p.tagTexts, 10),
      htmlContent := html)
  }

  /** `_parse_model_page(html, model)` as written: the counters are read by `(\d+)`. */
  function ApplyDetail(d: ModelData, p: DetailPage, html: string): ModelData
  {
    ApplyDetailWith(d, p, html, CaptureAsWritten)
  }

  /** `_parse_model_page(html, model)` with the counters read by `([\d,]+)`, which the
      comma removal after the patterns evidently intends. */
  function ApplyDetailIntended(d: ModelData, p: DetailPage, html: string): ModelData
  {
    ApplyDetailWith(d, p, html, CaptureCorrected)
  }

  /** A page whose only "Views" label is followed by "12,345" sets the views to 12. */
  lemma ApplyDetailTruncatesViews(d: ModelData, html: string)
    ensures ApplyDetail(d, Unmatched([]).(viewsAt := ["12,345"]), html).views == 12
  {
    var ts := ["12,345"];
    ReadCountAsWritten(d.views, ts);
    assert FirstMatch(ts, CaptureAsWritten) == Some(0);
    CountAsWrittenTruncates();
  }

  /** With the intended capture, a counter shown as `format(n, ",")` after the first label
      that matches reads back as `n`. */
  lemma ApplyDetailIntendedRoundTrip(d: ModelData, p: DetailPage, html: string, n: nat, rest: string)
    requires |p.viewsAt| > 0 && p.viewsAt[0] == FormatThousands(n) + rest
    requires rest == [] || !IsDigitOrComma(rest[0])
    ensures ApplyDetailIntended(d, p, html).views == n
  {
    CountCorrectedRoundTrip(n, rest);
    var m := FirstMatch(p.viewsAt, CaptureCorrected);
    assert CaptureCorrected(p.viewsAt[0]).Some?;
    assert m == Some(0);
  }

  /** A label not followed by a number is passed over for the next one. */
  lemma ApplyDetailSkipsUnreadLabel(d: ModelData, html: string)
    ensures ApplyDetail(d, Unmatched([]).(viewsAt := ["n/a", "7 views"]), html).views == 7
  {
    var ts := ["n/a", "7 views"];
    assert !IsDigit(ts[0][0]);
    assert CaptureAsWritten(ts[0]).None?;
    assert ts[1][1] == ' ';
    assert DigitRunEnd(ts[1], 1) == 1;
    assert DigitRunEnd(ts[1], 0) == 1;
    assert ts[1][..1] == "7";
    assert CaptureAsWritten(ts[1]) == Some("7");
    assert FirstMatch(ts, CaptureAsWritten) == Some(1);
    ReadCountAsWritten(d.views, ts);
    assert "7"[..0] == [];
  }

  /** Parsing never touches the id, the page link or the description, keeps the page's
      HTML, and takes the tags as the first ten tag links in order. */
  lemma ApplyDetailKeepsIdentity(d: ModelData, p: DetailPage, html: string)
    ensures var r := ApplyDetail(d, p, html);
      && r.modelId == d.modelId && r.url == d.url && r.description == d.description
      && r.FullUrl() == d.FullUrl()
      && r.htmlContent == html
      && |r.tags| <= 10 && r.tags == p.tagTexts[..|r.tags|]
      && (|p.tagTexts| >= 10 ==> |r.tags| == 10)
  {
  }

  /** A page on which nothing matches changes only the tags (to none) and the stored HTML. */
  lemma ApplyDetailUnmatched(d: ModelData, html: string)
    ensures ApplyDetail(d, Unmatched([]), html) == d.(tags := [], htmlContent := html)
  {
  }

  /** Each field changes only when its own lookup matched: the result on any page agrees
      with the old contents on every field whose lookup found nothing. */
  lemma ApplyDetailOnlyMatched(d: ModelData, p: DetailPage, html: string)
    ensures var r := ApplyDetail(d, p, html);
      && (p.h1.None? ==> r.title == d.title)
      && (p.authorMatch.None? ==> r.author == d.author)
      && (p.ogImage.None? && FirstThumbImage(p.imgSrcs).None? ==> r.thumbnail == d.thumbnail)
      && (FirstMatch(p.viewsAt, CaptureAsWritten).None? ==> r.views == d.views)
      && (FirstMatch(p.downloadsAt, CaptureAsWritten).None? ==> r.downloads == d.downloads)
      && (p.posted.None? ==> r.posted == d.posted)
      && (p.published.None? ==> r.published == d.published)
      && (p.updated.None? ==> r.updated == d.updated)
      && (p.category.None? ==> r.category == d.category)
      && (p.licenceText.None? ==> r.licence == d.licence)
  {
  }

  /** What a matched lookup puts in its field: the heading as found; the author's name,
      the three dates and the category as `Strip` of the matched text; a licence of at
      most 100 characters that the matched text starts with; a thumbnail taken from the
      page. */
  lemma ApplyDetailMatched(d: ModelData, p: DetailPage, html: string)
    ensures var r := ApplyDetail(d, p, html);
      && (p.h1.Some? ==> r.title == p.h1.value)
      && (p.authorMatch.Some? ==>
            && r.author.Some? && r.author.value.url == p.authorMatch.value.href
            && r.author.value.name == Strip(p.authorMatch.value.name))
      && (p.posted.Some? ==> r.posted == Strip(p.posted.value))
      && (p.published.Some? ==> r.published == Strip(p.published.value))
      && (p.updated.Some? ==> r.updated == Strip(p.updated.value))
      && (p.category.Some? ==> r.category == Strip(p.category.value))
      && (p.licenceText.Some? ==> |r.licence| <= 100 && StartsWith(p.licenceText.value, r.licence))
      && (p.ogImage.Some? ==> r.thumbnail == p.ogImage.value)
      && (p.ogImage.None? && FirstThumbImage(p.imgSrcs).Some? ==>
            r.thumbnail in p.imgSrcs && IsThumbCandidate(r.thumbnail))
  {
  }

  /** Parsing the same page twice gives what parsing it once gives. */
  lemma ApplyDetailIdempotent(d: ModelData, p: DetailPage, html: string)
    ensures ApplyDetail(ApplyDetail(d, p, html), p, html) == ApplyDetail(d, p, html)
  {
    var once := ApplyDetail(d, p, html);
    SetIfIdempotent(d.posted, p.posted);
    SetIfIdempotent(d.published, p.published);
    SetIfIdempotent(d.updated, p.updated);
    SetIfIdempotent(d.category, p.category);
    assert DetailThumbnail(once.thumbnail, p) == once.thumbnail;
  }

  lemma SetIfIdempotent(old_: string, v: Option<string>)
    ensures SetIf(SetIf(old_, v), v) == SetIf(old_, v)
  {
  }
}
