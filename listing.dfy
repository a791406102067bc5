/** What the client reads from a listing (search) page: the model cards, one per id in
    order of first appearance, and the page numbers.  The page is given as the sequence of
    its `<a>` elements in document order, each with what the parser asks of it. */
module Listings {
  import opened Wrappers
  import opened Text
  import opened Consts
  import opened Errors
  import opened Models

  /** An image inside a card: its `src` and `data-src` attributes, "" when absent. */
  datatype Image = Image(src: string, dataSrc: string)

  /** A link whose href mentions `/member/`, `/user/` or `patreon`: its stripped text and
      its href. */
  datatype AuthorLink = AuthorLink(name: string, href: string)

  /** One `<a>` element of a listing page: its href ("" when absent), whether a class of
      it matches `active|current`, its stripped text, the stripped text of its first
      `h2`-`h6`, `span` or `div` descendant, its first image, and the first author link
      that follows it in the document. */
  datatype Anchor = Anchor(
    href: string, active: bool, text: string, heading: Option<string>,
    image: Option<Image>, nextAuthor: Option<AuthorLink>)

  // ------------------------------------------------------------------ card links

  /** The end of the run of `[a-f0-9-]` characters starting at `from`. */
  function IdRunEnd(s: string, from: nat): (r: nat)
    requires from <= |s|
    ensures from <= r <= |s|
    ensures forall k :: from <= k < r ==> IsIdChar(s[k])
    ensures r < |s| ==> !IsIdChar(s[r])
    decreases |s| - from
  {
    if from == |s| || !IsIdChar(s[from]) then from else IdRunEnd(s, from + 1)
  }

  /** `/project/[a-f0-9-]+/` matches at index `p`. */
  predicate CardAt(h: string, p: nat) {
    OccursAt(h, MODEL_URL, p)
    && var e := IdRunEnd(h, p + 9); p + 9 < e < |h| && h[e] == '/'
  }

  /** The href filter of the card search. */
  predicate IsCardHref(h: string) {
    exists p: nat | p <= |h| :: CardAt(h, p)
  }

  /** The id of a card: the first REGEX_MODEL_ID capture, else the first ALT capture, else
      the first loose `/project/<segment>/` capture. */
  function CardKey(h: string): Option<string>
  {
    if SearchModelId(h).Some? then SearchModelId(h)
    else if SearchAltId(h).Some? then SearchAltId(h)
    else SearchLoose(h)
  }

  /** Every card link has an id (so the parser's "no id, skip" branch is never taken), and
      an id never contains `/`. */
  lemma CardKeyFound(h: string)
    requires IsCardHref(h)
    ensures CardKey(h).Some? && '/' !in CardKey(h).value
  {
    var p: nat :| p <= |h| && CardAt(h, p);
    assert OccursAt(h, MODEL_URL, p);
    var e := IdRunEnd(h, p + 9);
    var sl := SlashFrom(h, p + 9);
    assert sl.Some? && sl.value == e;
    assert LooseAt(h, p);
    AltFallbackNeverAdds(h);
  }

  /** The ids of the cards that have one, in order. */
  function Keys(cards: seq<Anchor>): seq<string>
  {
    if cards == [] then []
    else
      var k := CardKey(cards[|cards| - 1].href);
      Keys(cards[..|cards| - 1]) + (if k.Some? then [k.value] else [])
  }

  /** The first occurrence of each element, in order. */
  function Dedup<T(==)>(xs: seq<T>): seq<T>
  {
    if xs == [] then []
    else
      var x := xs[|xs| - 1];
      Dedup(xs[..|xs| - 1]) + (if x in xs[..|xs| - 1] then [] else [x])
  }

  /** Dedup keeps every element once and adds nothing. */
  lemma {:induction false} DedupProps<T>(xs: seq<T>)
    ensures forall x :: x in Dedup(xs) <==> x in xs
    ensures forall i, j :: 0 <= i < j < |Dedup(xs)| ==> Dedup(xs)[i] != Dedup(xs)[j]
  {
    if xs != [] {
      var init := xs[..|xs| - 1];
      assert xs == init + [xs[|xs| - 1]];
      DedupProps(init);
    }
  }

  /** Dedup of a list grown by one element grows by that element when it is new. */
  lemma DedupSnoc<T>(xs: seq<T>, x: T)
    ensures Dedup(xs + [x]) == Dedup(xs) + (if x in xs then [] else [x])
  {
    assert (xs + [x])[..|xs|] == xs;
  }

  /** Links to ids [A, B, A, C] give [A, B, C]. */
  lemma DedupExample<T>(a: T, b: T, c: T)
    requires a != b && a != c && b != c
    ensures Dedup([a, b, a, c]) == [a, b, c]
  {
    assert [a][..0] == [];
    DedupSnoc([a], b);
    assert [a] + [b] == [a, b];
    DedupSnoc([a, b], a);
    assert [a, b] + [a] == [a, b, a];
    DedupSnoc([a, b, a], c);
    assert [a, b, a] + [c] == [a, b, a, c];
  }

  // ------------------------------------------------------------------ cards to models

  /** The title of a card: its heading's text when longer than 2 characters, else its own
      text cut to 50 characters when shorter than 100, else none. */
  function CardTitle(c: Anchor): (t: string)
    ensures c.heading.Some? && |c.heading.value| > 2 ==> t == c.heading.value
    ensures !(c.heading.Some? && |c.heading.value| > 2) ==>
      t == (if c.text != "" && |c.text| < 100 then c.text[..if |c.text| < 50 then |c.text| else 50] else "")
  {
    if c.heading.Some? && c.heading.value != "" && |c.heading.value| > 2 then c.heading.value
    else if c.text != "" && |c.text| < 100 then Take(c.text, 50)
    else ""
  }

  /** The thumbnail of a card: the image's `src`, else its `data-src`; none without image. */
  function CardThumbnail(c: Anchor): string
  {
    if c.image.Some? then (if c.image.value.src != "" then c.image.value.src else c.image.value.dataSrc)
    else ""
  }

  /** The author of a card: the next author link, when its text is not empty. */
  function CardAuthor(c: Anchor): (a: Option<Author>)
    ensures a.Some? <==> c.nextAuthor.Some? && c.nextAuthor.value.name != ""
    ensures a.Some? ==> a.value == Author(c.nextAuthor.value.name, c.nextAuthor.value.href)
  {
    if c.nextAuthor.Some? && c.nextAuthor.value.name != "" then
      Some(Author(c.nextAuthor.value.name, c.nextAuthor.value.href))
    else None
  }

  /** The model a card with id `k` gives: `from_id(k)`, whose ValueError escapes, with the
      card's title, thumbnail and author. */
  function CardModel(c: Anchor, k: string): (r: Result<ModelData, Error>)
    ensures r.Failure? <==> ResolveId(k).Failure?
    ensures r.Failure? ==> r.error.ValueError?
    ensures r.Success? ==>
      && r.value.modelId == ResolveId(k).value.modelId && r.value.url == ResolveId(k).value.url
      && r.value.title == CardTitle(c) && r.value.thumbnail == CardThumbnail(c)
      && r.value.author == CardAuthor(c)
  {
    match ResolveId(k)
    case Failure(e) => Failure(e)
    case Success(ref) =>
      Success(NewModelData(ref).(title := CardTitle(c), thumbnail := CardThumbnail(c), author := CardAuthor(c)))
  }

  /** A card whose id `from_id` accepts gives the model `from_id` builds, with the card's
      title, thumbnail and author set. */
  lemma CardModelBuilt(c: Anchor, k: string)
    requires ResolveId(k).Success?
    ensures CardModel(c, k) == Success(NewModelData(ResolveId(k).value).(
      title := CardTitle(c), thumbnail := CardThumbnail(c), author := CardAuthor(c)))
  {
  }

  /** The ids seen among `cards`. */
  function Seen(cards: seq<Anchor>): set<string>
  {
    if cards == [] then {}
    else
      var k := CardKey(cards[|cards| - 1].href);
      Seen(cards[..|cards| - 1]) + (if k.Some? then {k.value} else {})
  }

  /** The ids seen are the ids of the cards. */
  lemma {:induction false} SeenKeys(cards: seq<Anchor>)
    ensures forall k :: k in Seen(cards) <==> k in Keys(cards)
  {
    if cards != [] {
      SeenKeys(cards[..|cards| - 1]);
    }
  }

  /** The models of the cards, in order, skipping a card whose id was seen before; the
      first failing `from_id` ends the parse. */
  function BuildModels(cards: seq<Anchor>): Result<seq<ModelData>, Error>
  {
    if cards == [] then Success([])
    else
      var init, c := cards[..|cards| - 1], cards[|cards| - 1];
      var prev := BuildModels(init);
      if prev.Failure? then prev
      else match CardKey(c.href)
        case None => prev
        case Some(k) =>
          if k in Seen(init) then prev
          else match CardModel(c, k)
            case Failure(e) => Failure(e)
            case Success(m) => Success(prev.value + [m])
  }

  /** A card without a new id adds nothing to the ids seen or to the models built. */
  lemma SkipStep(cards: seq<Anchor>, i: nat)
    requires i < |cards|
    requires CardKey(cards[i].href).None? || CardKey(cards[i].href).value in Seen(cards[..i])
    ensures Seen(cards[..i + 1]) == Seen(cards[..i])
    ensures BuildModels(cards[..i]).Success? ==> BuildModels(cards[..i + 1]) == BuildModels(cards[..i])
  {
    var c := cards[..i + 1];
    assert c[..|c| - 1] == cards[..i];
  }

  /** A card with a new id adds it to the ids seen, and its model to the models built. */
  lemma AddStep(cards: seq<Anchor>, i: nat)
    requires i < |cards|
    requires CardKey(cards[i].href).Some? && CardKey(cards[i].href).value !in Seen(cards[..i])
    requires BuildModels(cards[..i]).Success?
    ensures Seen(cards[..i + 1]) == Seen(cards[..i]) + {CardKey(cards[i].href).value}
    ensures var m := CardModel(cards[i], CardKey(cards[i].href).value);
      && (m.Failure? ==> BuildModels(cards[..i + 1]) == Failure(m.error))
      && (m.Success? ==> BuildModels(cards[..i + 1]) == Success(BuildModels(cards[..i]).value + [m.value]))
  {
    var c := cards[..i + 1];
    assert c[..|c| - 1] == cards[..i];
  }

  /** A successful parse lists one model per distinct card id, in order of first appearance,
      each under its id with white space stripped. */
  lemma {:induction false} BuildModelsIds(cards: seq<Anchor>)
    requires BuildModels(cards).Success?
    ensures var ms := BuildModels(cards).value;
      && |ms| == |Dedup(Keys(cards))|
      && forall i :: 0 <= i < |ms| ==> ms[i].modelId == Strip(Dedup(Keys(cards))[i])
  {
    if cards != [] {
      var init, c := cards[..|cards| - 1], cards[|cards| - 1];
      BuildModelsIds(init);
      var prev := BuildModels(init).value;
      var ms := BuildModels(cards).value;
      var k := CardKey(c.href);
      if k.None? {
        assert Keys(cards) == Keys(init);
        assert ms == prev;
      } else {
        var ks := Keys(init);
        assert Keys(cards) == ks + [k.value];
        DedupSnoc(ks, k.value);
        SeenKeys(init);
        if k.value in Seen(init) {
          assert ms == prev;
        } else {
          CardKeyNoSlash(c.href);
          ResolveIdWithoutSlash(k.value);
          var m := CardModel(c, k.value).value;
          assert ms == prev + [m];
          assert m.modelId == Strip(k.value);
        }
      }
    }
  }

  /** Every model of a successful parse has a UUID for its id and its canonical page for
      its link, so `from_id` accepts that id again and gives the same model reference. */
  lemma {:induction false} BuildModelsUuids(cards: seq<Anchor>)
    requires BuildModels(cards).Success?
    ensures forall m :: m in BuildModels(cards).value ==>
      IsUuid(m.modelId) && ResolveId(m.modelId) == Success(ModelRef(m.modelId, m.url))
  {
    if cards != [] {
      var init, c := cards[..|cards| - 1], cards[|cards| - 1];
      BuildModelsUuids(init);
      var prev := BuildModels(init).value;
      var ms := BuildModels(cards).value;
      var k := CardKey(c.href);
      if k.Some? && k.value !in Seen(init) {
        CardKeyNoSlash(c.href);
        ResolveIdWithoutSlash(k.value);
        var ref := ResolveId(k.value).value;
        UuidIsStripped(Strip(k.value));
        assert ref.modelId == Strip(k.value);
        var m := CardModel(c, k.value).value;
        assert ms == prev + [m];
      } else {
        assert ms == prev;
      }
    }
  }

  /** The index of the first card from `from` on whose id is `k`, or `|cards|` when there
      is none. */
  function FirstKeyFrom(cards: seq<Anchor>, k: string, from: nat): (j: nat)
    requires from <= |cards|
    ensures from <= j <= |cards|
    ensures j < |cards| ==> CardKey(cards[j].href) == Some(k)
    ensures forall q :: from <= q < j ==> CardKey(cards[q].href) != Some(k)
    decreases |cards| - from
  {
    if from == |cards| || CardKey(cards[from].href) == Some(k) then from
    else FirstKeyFrom(cards, k, from + 1)
  }

  /** The index of the first card whose id is `k`, or `|cards|` when there is none. */
  function FirstKey(cards: seq<Anchor>, k: string): (j: nat)
    ensures j <= |cards|
    ensures j < |cards| ==> CardKey(cards[j].href) == Some(k)
    ensures forall q :: 0 <= q < j ==> CardKey(cards[q].href) != Some(k)
  {
    FirstKeyFrom(cards, k, 0)
  }

  /** The first card with id `k` among the first `m` cards is the first one overall, if
      it is among them. */
  lemma FirstKeyPrefix(cards: seq<Anchor>, k: string, m: nat)
    requires m <= |cards|
    requires FirstKey(cards[..m], k) < m
    ensures FirstKey(cards, k) == FirstKey(cards[..m], k)
  {
    var b := FirstKey(cards[..m], k);
    assert cards[..m][b] == cards[b];
    assert forall q :: 0 <= q < m ==> cards[..m][q] == cards[q];
  }

  /** The id of every card is among the ids seen. */
  lemma {:induction false} SeenHas(cards: seq<Anchor>, j: nat)
    requires j < |cards| && CardKey(cards[j].href).Some?
    ensures CardKey(cards[j].href).value in Seen(cards)
  {
    if j < |cards| - 1 {
      var init := cards[..|cards| - 1];
      assert init[j] == cards[j];
      SeenHas(init, j);
    }
  }

  /** Whether the last card brings an id not seen on the cards before it. */
  predicate NewLast(cards: seq<Anchor>)
    requires cards != []
  {
    var k := CardKey(cards[|cards| - 1].href);
    k.Some? && k.value !in Seen(cards[..|cards| - 1])
  }

  /** One more card adds its id to the distinct ids exactly when it is new. */
  lemma KeysSnoc(cards: seq<Anchor>)
    requires cards != []
    ensures var init, k := cards[..|cards| - 1], CardKey(cards[|cards| - 1].href);
      Dedup(Keys(cards)) == Dedup(Keys(init)) + (if NewLast(cards) then [k.value] else [])
  {
    var init, k := cards[..|cards| - 1], CardKey(cards[|cards| - 1].href);
    SeenKeys(init);
    if k.Some? {
      assert Keys(cards) == Keys(init) + [k.value];
      DedupSnoc(Keys(init), k.value);
    } else {
      assert Keys(cards) == Keys(init);
    }
  }

  /** One more card adds its model to the models built exactly when its id is new. */
  lemma ModelsSnoc(cards: seq<Anchor>)
    requires cards != [] && BuildModels(cards).Success?
    ensures BuildModels(cards[..|cards| - 1]).Success?
    ensures var c := cards[|cards| - 1];
      NewLast(cards) ==> CardModel(c, CardKey(c.href).value).Success?
    ensures var init, c := cards[..|cards| - 1], cards[|cards| - 1];
      BuildModels(cards).value == BuildModels(init).value
        + (if NewLast(cards) then [CardModel(c, CardKey(c.href).value).value] else [])
  {
  }

  /** The last card is the first with its id when no card before it has that id. */
  lemma FirstKeyNew(cards: seq<Anchor>)
    requires cards != [] && CardKey(cards[|cards| - 1].href).Some?
    requires CardKey(cards[|cards| - 1].href).value !in Seen(cards[..|cards| - 1])
    ensures FirstKey(cards, CardKey(cards[|cards| - 1].href).value) == |cards| - 1
  {
    var init, k := cards[..|cards| - 1], CardKey(cards[|cards| - 1].href).value;
    forall q | 0 <= q < |init|
      ensures CardKey(cards[q].href) != Some(k)
    {
      assert init[q] == cards[q];
      if CardKey(init[q].href).Some? {
        SeenHas(init, q);
      }
    }
  }

  /** Model `i` of a successful parse is built from the first card carrying the `i`-th
      distinct id: a later card with the same id changes neither its title, thumbnail nor
      author. */
  lemma {:induction false} BuildModelsFirstCards(cards: seq<Anchor>)
    requires BuildModels(cards).Success?
    ensures var ms := BuildModels(cards).value;
      var ks := Dedup(Keys(cards));
      && |ms| == |ks|
      && forall i :: 0 <= i < |ms| ==>
           && FirstKey(cards, ks[i]) < |cards|
           && CardModel(cards[FirstKey(cards, ks[i])], ks[i]) == Success(ms[i])
  {
    BuildModelsIds(cards);
    if cards != [] {
      var init, c := cards[..|cards| - 1], cards[|cards| - 1];
      ModelsSnoc(cards);
      KeysSnoc(cards);
      BuildModelsFirstCards(init);
      BuildModelsIds(init);
      var prev, ms := BuildModels(init).value, BuildModels(cards).value;
      var kp, ks := Dedup(Keys(init)), Dedup(Keys(cards));
      forall i | 0 <= i < |ms|
        ensures FirstKey(cards, ks[i]) < |cards| && CardModel(cards[FirstKey(cards, ks[i])], ks[i]) == Success(ms[i])
      {
        if i < |prev| {
          assert ks[i] == kp[i] && ms[i] == prev[i];
          var j := FirstKey(init, kp[i]);
          FirstKeyPrefix(cards, kp[i], |init|);
          assert init[j] == cards[j];
        } else {
          assert NewLast(cards);
          FirstKeyNew(cards);
        }
      }
    }
  }

  /** An id a card yields has no `/`. */
  lemma CardKeyNoSlash(h: string)
    requires CardKey(h).Some?
    ensures '/' !in CardKey(h).value
  {
    AltFallbackNeverAdds(h);
    if SearchModelId(h).Some? {
      var k := SearchModelId(h).value;
      assert forall i :: 0 <= i < |k| ==> IsIdChar(k[i]);
    }
  }

  // ------------------------------------------------------------------ page numbers

  /** `page=\d` occurs at index `p`. */
  predicate PageAt(h: string, p: nat) {
    OccursAt(h, "page=", p) && p + 5 < |h| && IsDigit(h[p + 5])
  }

  /** Where `re.search(r'page=(\d+)', h)` matches. */
  function PagePos(h: string): (r: Option<nat>)
    ensures r.Some? ==> PageAt(h, r.value) && forall q: nat :: q < r.value ==> !PageAt(h, q)
    ensures r.None? ==> forall q: nat :: !PageAt(h, q)
  {
    var P := (p: nat) => PageAt(h, p);
    assert forall q: nat :: P(q) == PageAt(h, q);
    FindFirst(0, |h|, P)
  }

  /** `int(re.search(r'page=(\d+)', h).group(1))`, if it matches: the whole run of digits
      after the first `page=` that a digit follows. */
  function PageParam(h: string): (r: Option<nat>)
    ensures r.Some? <==> PagePos(h).Some?
  {
    match PagePos(h)
    case None => None
    case Some(p) => Some(DigitsValue(h[p + 5..DigitRunEnd(h, p + 5)]))
  }

  /** The href filter of the pagination search, `\?page=\d+`. */
  predicate IsPageHref(h: string) {
    exists p: nat | p <= |h| :: OccursAt(h, "?page=", p) && p + 6 < |h| && IsDigit(h[p + 6])
  }

  /** Every pagination link carries a page number, so the `if page_match` test in the
      pagination loop always holds. */
  lemma PageHrefHasParam(h: string)
    requires IsPageHref(h)
    ensures PageParam(h).Some?
  {
    var p: nat :| OccursAt(h, "?page=", p) && p + 6 < |h| && IsDigit(h[p + 6]);
    assert h[p + 1..p + 6] == h[p..p + 6][1..];
    assert PageAt(h, p + 1);
  }

  /** The pagination links of a page, in order. */
  function PageLinks(page: seq<Anchor>): (r: seq<Anchor>)
    ensures forall a :: a in r <==> a in page && IsPageHref(a.href)
  {
    if page == [] then []
    else
      var a := page[|page| - 1];
      PageLinks(page[..|page| - 1]) + (if IsPageHref(a.href) then [a] else [])
  }

  /** `max_page` after the pagination loop over `links`: the largest page number, never
      below 1. */
  function MaxPage(links: seq<Anchor>): (r: nat)
    ensures r >= 1
  {
    if links == [] then 1
    else
      var m := MaxPage(links[..|links| - 1]);
      match PageParam(links[|links| - 1].href)
      case None => m
      case Some(n) => if n > m then n else m
  }

  /** The largest page number is at least every number found, and is one of them or 1. */
  lemma {:induction false} MaxPageIsMax(links: seq<Anchor>)
    ensures forall a :: a in links && PageParam(a.href).Some? ==> PageParam(a.href).value <= MaxPage(links)
    ensures MaxPage(links) == 1 || exists a :: a in links && PageParam(a.href) == Some(MaxPage(links))
  {
    if links != [] {
      var init := links[..|links| - 1];
      assert links == init + [links[|links| - 1]];
      MaxPageIsMax(init);
    }
  }

  /** `total_pages`: the default 1 when there are no pagination links, else the loop's
      maximum. */
  function TotalPages(page: seq<Anchor>): (r: nat)
    ensures r >= 1
  {
    var links := PageLinks(page);
    if links == [] then 1 else MaxPage(links)
  }

  /** The first anchor of the page with an `active` or `current` class. */
  function FirstActive(page: seq<Anchor>): (r: Option<nat>)
    ensures r.Some? ==> r.value < |page| && page[r.value].active
    ensures r.Some? ==> forall j :: 0 <= j < r.value ==> !page[j].active
    ensures r.None? ==> forall j :: 0 <= j < |page| ==> !page[j].active
  {
    var P := (i: nat) => i < |page| && page[i].active;
    assert forall i: nat :: P(i) == (i < |page| && page[i].active);
    FindFirst(0, |page|, P)
  }

  /** `current_page`: the page number of the first active anchor, else the default 1. */
  function CurrentPage(page: seq<Anchor>): int
  {
    match FirstActive(page)
    case None => 1
    case Some(i) => if PageParam(page[i].href).Some? then PageParam(page[i].href).value else 1
  }

  /** The card links of a page, in order. */
  function CardAnchors(page: seq<Anchor>): (r: seq<Anchor>)
    ensures forall a :: a in r <==> a in page && IsCardHref(a.href)
  {
    if page == [] then []
    else
      var a := page[|page| - 1];
      CardAnchors(page[..|page| - 1]) + (if IsCardHref(a.href) then [a] else [])
  }

  /** `_parse_search_results`: the listing a page gives, or the ValueError of the first card
      whose id `from_id` rejects. */
  function ParseListing(page: seq<Anchor>): (r: Result<Listing, Error>)
    ensures r.Success? ==> r.value.totalPages >= 1 && r.value.query == ""
    ensures r.Failure? ==> r.error.ValueError?
  {
    match BuildModels(CardAnchors(page))
    case Failure(e) => BuildModelsError(CardAnchors(page)); Failure(e)
    case Success(ms) => Success(Listing(ms, TotalPages(page), CurrentPage(page), ""))
  }

  /** The only error a parse raises is `from_id`'s ValueError. */
  lemma {:induction false} BuildModelsError(cards: seq<Anchor>)
    ensures BuildModels(cards).Failure? ==> BuildModels(cards).error.ValueError?
  {
    if cards != [] {
      BuildModelsError(cards[..|cards| - 1]);
    }
  }
}
