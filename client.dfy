/** The scraper's client: the retrying GET request, the two page parsers and the
    operations built on them.  The network, `html.unescape`, `urlencode` and the HTML parser
    are fixed functions the client is built with; the client counts its requests, so that
    the network may answer each request differently, and records every delay it sleeps. */
module SmutClient {
  import opened Wrappers
  import opened Text
  import opened Consts
  import opened Errors
  import opened Models
  import opened Fetching
  import opened Listings
  import opened Details

  /** `randint(1, min(totalPages, 50))` for the given draw. */
  function RandomPage(totalPages: int, draw: nat): (r: int)
    requires totalPages >= 1
    ensures 1 <= r <= totalPages && r <= 50
  {
    var hi := if totalPages < 50 then totalPages else 50;
    1 + draw % hi
  }

  /** Every page in the range can be drawn. */
  lemma RandomPageCovers(totalPages: int, p: int)
    requires 1 <= p <= totalPages && p <= 50
    ensures RandomPage(totalPages, (p - 1) as nat) == p
  {
    var hi := if totalPages < 50 then totalPages else 50;
    SmallRemainder(p - 1, hi);
  }

  lemma SmallRemainder(a: nat, m: nat)
    requires a < m
    ensures a % m == a
  {
  }

  lemma AppendAssoc<T>(a: seq<T>, b: seq<T>, c: seq<T>)
    ensures a + (b + c) == a + b + c
  {
  }

  /** `random.choice(s)` for the given draw. */
  function Pick<T>(s: seq<T>, draw: nat): (r: T)
    requires s != []
    ensures r in s
  {
    s[draw % |s|]
  }

  /** Every element can be drawn. */
  lemma PickCovers<T>(s: seq<T>, i: nat)
    requires i < |s|
    ensures Pick(s, i) == s[i]
  {
    SmallRemainder(i, |s|);
  }

  /** The query parameters of a search, in the order they are added: each one only when it
      differs from its default. */
  function SearchParams(query: string, category: string, sortBy: string, page: int, furry: bool)
    : seq<(string, string)>
  {
    (if query != "" then [("q", query)] else [])
    + (if category != CATEGORY_ANY then [("category", category)] else [])
    + (if sortBy != SORT_LAST_UPDATED then [("sort", sortBy)] else [])
    + (if page > 1 then [("page", IntToString(page))] else [])
    + (if furry then [("furry", "on")] else [])
  }

  /** No two parameters share a key. */
  predicate DistinctKeys(ps: seq<(string, string)>) {
    forall i, j :: 0 <= i < j < |ps| ==> ps[i].0 != ps[j].0
  }

  /** Two lists without a shared key join into one whose keys stay distinct. */
  lemma AppendDistinct(a: seq<(string, string)>, b: seq<(string, string)>)
    requires DistinctKeys(a) && DistinctKeys(b)
    requires forall p, q :: p in a && q in b ==> p.0 != q.0
    ensures DistinctKeys(a + b)
  {
    forall i, j | 0 <= i < j < |a + b|
      ensures (a + b)[i].0 != (a + b)[j].0
    {
      if j >= |a| && i < |a| {
        assert (a + b)[i] in a && (a + b)[j] in b;
      }
    }
  }

  /** Each parameter is present exactly when its argument is not the default. */
  lemma SearchParamsPresent(query: string, category: string, sortBy: string, page: int, furry: bool)
    ensures var ps := SearchParams(query, category, sortBy, page, furry);
      && (("q", query) in ps <==> query != "")
      && (("category", category) in ps <==> category != "any")
      && (("sort", sortBy) in ps <==> sortBy != "last_updated")
      && (("page", IntToString(page)) in ps <==> page > 1)
      && (("furry", "on") in ps <==> furry)
  {
    KeysDiffer();
    var q := if query != "" then [("q", query)] else [];
    var c := if category != CATEGORY_ANY then [("category", category)] else [];
    var s := if sortBy != SORT_LAST_UPDATED then [("sort", sortBy)] else [];
    var p := if page > 1 then [("page", IntToString(page))] else [];
    var f := if furry then [("furry", "on")] else [];
    assert SearchParams(query, category, sortBy, page, furry) == q + c + s + p + f;
    InSegments(("q", query), q, c, s, p, f);
    InSegments(("category", category), q, c, s, p, f);
    InSegments(("sort", sortBy), q, c, s, p, f);
    InSegments(("page", IntToString(page)), q, c, s, p, f);
    InSegments(("furry", "on"), q, c, s, p, f);
  }

  lemma InSegments<T>(x: T, a: seq<T>, b: seq<T>, c: seq<T>, d: seq<T>, e: seq<T>)
    ensures x in a + b + c + d + e <==> x in a || x in b || x in c || x in d || x in e
  {
  }

  /** The five keys are different strings. */
  lemma KeysDiffer()
    ensures "q" != "category" && "q" != "sort" && "q" != "page" && "q" != "furry"
    ensures "category" != "sort" && "category" != "page" && "category" != "furry"
    ensures "sort" != "page" && "sort" != "furry" && "page" != "furry"
  {
    assert "category"[0] != "sort"[0] && "category"[0] != "page"[0] && "category"[0] != "furry"[0];
    assert "sort"[0] != "page"[0] && "sort"[0] != "furry"[0] && "page"[0] != "furry"[0];
  }

  /** A search has at most five parameters, each under its own key; with every argument at
      its default there is none. */
  lemma SearchParamsDistinct(query: string, category: string, sortBy: string, page: int, furry: bool)
    ensures var ps := SearchParams(query, category, sortBy, page, furry);
      |ps| <= 5 && DistinctKeys(ps)
    ensures SearchParams("", "any", "last_updated", 1, false) == []
  {
    KeysDiffer();
    var q := if query != "" then [("q", query)] else [];
    var c := if category != CATEGORY_ANY then [("category", category)] else [];
    var s := if sortBy != SORT_LAST_UPDATED then [("sort", sortBy)] else [];
    var p := if page > 1 then [("page", IntToString(page))] else [];
    var f := if furry then [("furry", "on")] else [];
    AppendDistinct(q, c);
    AppendDistinct(q + c, s);
    AppendDistinct(q + c + s, p);
    AppendDistinct(q + c + s + p, f);
  }

  class Client {
    /** `max_retries` */
    const maxRetries: int
    /** What attempt `k` of request number `n` for a URL ends with. */
    const server: (nat, string, nat) -> Attempt
    /** `html.unescape` */
    const unescape: string -> string
    /** `urlencode` of a list of key-value pairs */
    const urlencode: seq<(string, string)> -> string
    /** The lookups of a model page. */
    const readDetail: string -> DetailPage
    /** The `<a>` elements of a listing page. */
    const readListing: string -> seq<Anchor>

    /** The number of requests made so far. */
    var requests: nat
    /** The delays slept so far, in seconds. */
    var sleeps: seq<nat>

    constructor (maxRetries: int, server: (nat, string, nat) -> Attempt, unescape: string -> string,
                 urlencode: seq<(string, string)> -> string, readDetail: string -> DetailPage,
                 readListing: string -> seq<Anchor>)
      ensures this.maxRetries == maxRetries && this.server == server && this.unescape == unescape
      ensures this.urlencode == urlencode && this.readDetail == readDetail && this.readListing == readListing
      ensures requests == 0 && sleeps == []
    {
      this.maxRetries, this.server, this.unescape := maxRetries, server, unescape;
      this.urlencode, this.readDetail, this.readListing := urlencode, readDetail, readListing;
      requests, sleeps := 0, [];
    }

    // ---------------------------------------------------------------- specifications

    /** The attempts of request number `n`. */
    function Net(n: nat, url: string): nat -> Attempt
    {
      (k: nat) => server(n, url, k)
    }

    /** Request number `n`, as the retry loop's reference definition runs it. */
    function Fetched(n: nat, url: string): FetchRun
    {
      Fetching.Fetch(Net(n, url), maxRetries, url, unescape)
    }

    /** The URL of a search: the root page, with a query string only when there are
        parameters. */
    function SearchUrl(params: seq<(string, string)>): (url: string)
      ensures StartsWith(url, ROOT_URL + "/")
      ensures params == [] <==> url == ROOT_URL + "/"
    {
      var base := ROOT_URL + "/";
      if params == [] then base
      else
        var url := base + "?" + urlencode(params);
        assert url[..|base|] == base;
        assert |url| > |base|;
        url
    }

    /** `search(...)` as request number `n`: the listing of the page fetched, stamped with
        the query and the requested page, or the first error. */
    function SearchOutcome(n: nat, query: string, category: string, sortBy: string, page: int, furry: bool)
      : (r: Result<Listing, Error>)
      ensures r.Success? ==> r.value.query == query && r.value.currentPage == page && r.value.totalPages >= 1
    {
      var url := SearchUrl(SearchParams(query, category, sortBy, page, furry));
      match Fetched(n, url).outcome
      case Failure(e) => Failure(e)
      case Success(body) =>
        match ParseListing(readListing(body))
        case Failure(e) => Failure(e)
        case Success(l) => Success(l.(query := query, currentPage := page))
    }

    /** `get_model(id)` with request number `n`. */
    function ModelOutcome(n: nat, id: string): Result<ModelData, Error>
    {
      match ResolveId(id)
      case Failure(e) => Failure(InvalidModelID(e.msg))
      case Success(ref) =>
        var m := NewModelData(ref);
        match Fetched(n, m.FullUrl()).outcome
        case Failure(e) => Failure(e)
        case Success(body) =>
          if Contains(body, "Page not Found") || Contains(body, "页面不存在") then
            Failure(ModelNotFound("模型不存在: " + id))
          else Success(ApplyDetail(m, readDetail(body), body))
    }

    /** `get_random()` from request number `n` on, with the two draws of the random module. */
    function RandomOutcome(n: nat, pageDraw: nat, pickDraw: nat): Result<Option<ModelData>, Error>
    {
      match SearchOutcome(n, "", CATEGORY_ANY, SORT_LAST_UPDATED, 1, false)
      case Failure(e) => Failure(e)
      case Success(first) =>
        if first.models == [] then Success(None) else RandomAfter(n + 1, first, pageDraw, pickDraw)
    }

    /** The rest of `get_random()` from request number `n` on, once its first search listed
        `first`: the search of the drawn page, then the model drawn from it, or one of `first`
        when the drawn page lists nothing. */
    function RandomAfter(n: nat, first: Listing, pageDraw: nat, pickDraw: nat): Result<Option<ModelData>, Error>
      requires first.totalPages >= 1 && first.models != []
    {
      match SearchOutcome(n, "", CATEGORY_ANY, SORT_LAST_UPDATED, RandomPage(first.totalPages, pageDraw), false)
      case Failure(e) => Failure(e)
      case Success(second) =>
        if second.models == [] then Success(Some(Pick(first.models, pickDraw)))
        else match ModelOutcome(n + 1, Pick(second.models, pickDraw).modelId)
          case Failure(e) => Failure(e)
          case Success(m) => Success(Some(m))
    }

    /** What `get_model` makes of a page body it has fetched for a well-formed id. */
    lemma ModelFetched(n: nat, id: string, body: string)
      requires ResolveId(id).Success?
      requires Fetched(n, NewModelData(ResolveId(id).value).FullUrl()).outcome == Success(body)
      ensures ModelSleeps(n, id) == Fetched(n, NewModelData(ResolveId(id).value).FullUrl()).sleeps
      ensures Contains(body, "Page not Found") || Contains(body, "页面不存在") ==>
        ModelOutcome(n, id) == Failure(ModelNotFound("模型不存在: " + id))
      ensures !(Contains(body, "Page not Found") || Contains(body, "页面不存在")) ==>
        ModelOutcome(n, id) == Success(ApplyDetail(NewModelData(ResolveId(id).value), readDetail(body), body))
    {
    }

    /** The delays `get_model(id)` sleeps as request number `n`: none when `from_id`
        rejects the id, since then no request is made. */
    function ModelSleeps(n: nat, id: string): seq<nat>
    {
      match ResolveId(id)
      case Failure(_) => []
      case Success(ref) => Fetched(n, NewModelData(ref).FullUrl()).sleeps
    }

    /** The URL of `get_random`'s search for listing page `page`. */
    function RandomPageUrl(page: int): string
    {
      SearchUrl(SearchParams("", CATEGORY_ANY, SORT_LAST_UPDATED, page, false))
    }

    /** The number of requests `get_random()` makes from request number `n` on. */
    function RandomRequests(n: nat, pageDraw: nat, pickDraw: nat): (r: nat)
      ensures 1 <= r <= 3
    {
      match SearchOutcome(n, "", CATEGORY_ANY, SORT_LAST_UPDATED, 1, false)
      case Failure(_) => 1
      case Success(first) =>
        if first.models == [] then 1 else 1 + RandomRequestsAfter(n + 1, first, pageDraw, pickDraw)
    }

    /** The number of requests made after the first search listed `first`. */
    function RandomRequestsAfter(n: nat, first: Listing, pageDraw: nat, pickDraw: nat): (r: nat)
      requires first.totalPages >= 1 && first.models != []
      ensures 1 <= r <= 2
    {
      match SearchOutcome(n, "", CATEGORY_ANY, SORT_LAST_UPDATED, RandomPage(first.totalPages, pageDraw), false)
      case Failure(_) => 1
      case Success(second) =>
        if second.models != [] && ResolveId(Pick(second.models, pickDraw).modelId).Success? then 2 else 1
    }

    /** The delays `get_random()` sleeps from request number `n` on: those of each request
        it makes, in order. */
    function RandomSleeps(n: nat, pageDraw: nat, pickDraw: nat): seq<nat>
    {
      var slept := Fetched(n, RandomPageUrl(1)).sleeps;
      match SearchOutcome(n, "", CATEGORY_ANY, SORT_LAST_UPDATED, 1, false)
      case Failure(_) => slept
      case Success(first) =>
        if first.models == [] then slept else slept + RandomSleepsAfter(n + 1, first, pageDraw, pickDraw)
    }

    /** The delays slept after the first search listed `first`. */
    function RandomSleepsAfter(n: nat, first: Listing, pageDraw: nat, pickDraw: nat): seq<nat>
      requires first.totalPages >= 1 && first.models != []
    {
      var p := RandomPage(first.totalPages, pageDraw);
      var slept := Fetched(n, RandomPageUrl(p)).sleeps;
      match SearchOutcome(n, "", CATEGORY_ANY, SORT_LAST_UPDATED, p, false)
      case Failure(_) => slept
      case Success(second) =>
        if second.models == [] then slept else slept + ModelSleeps(n + 1, Pick(second.models, pickDraw).modelId)
    }

    // ---------------------------------------------------------------- properties

    /** After a first page that lists models, `get_random` goes on as `RandomAfter` does,
        one request later. */
    lemma RandomContinues(n: nat, pageDraw: nat, pickDraw: nat, first: Listing)
      requires SearchOutcome(n, "", CATEGORY_ANY, SORT_LAST_UPDATED, 1, false) == Success(first)
      requires first.models != []
      ensures first.totalPages >= 1
      ensures RandomOutcome(n, pageDraw, pickDraw) == RandomAfter(n + 1, first, pageDraw, pickDraw)
      ensures RandomRequests(n, pageDraw, pickDraw) == 1 + RandomRequestsAfter(n + 1, first, pageDraw, pickDraw)
      ensures RandomSleeps(n, pageDraw, pickDraw)
           == Fetched(n, RandomPageUrl(1)).sleeps + RandomSleepsAfter(n + 1, first, pageDraw, pickDraw)
    {
    }

    /** `get_model` raises only the site's own errors, unless an attempt of its request let
        an exception through: a rejected id becomes InvalidModelID with the same message, and
        a model it returns keeps the id and link `from_id` gave. */
    lemma ModelOutcomeProps(n: nat, id: string)
      ensures var r := ModelOutcome(n, id);
        && (r.Failure? ==> r.error.IsSiteError() || r.error.Uncaught?)
        && (ResolveId(id).Failure? ==> r == Failure(InvalidModelID(ResolveId(id).error.msg)))
        && (ResolveId(id).Success? && r.Failure? ==>
              r.error.ModelNotFound? || r.error.NetworkError? || r.error.Uncaught?)
        && (r.Success? ==>
              && ResolveId(id).Success?
              && r.value.modelId == ResolveId(id).value.modelId && r.value.url == ResolveId(id).value.url)
    {
      if ResolveId(id).Success? {
        var m := NewModelData(ResolveId(id).value);
        FetchFromErrors(Net(n, m.FullUrl()), maxRetries, m.FullUrl(), unescape, 0);
      }
    }

    /** A page that says it does not exist is reported as a missing model, whatever else it
        holds. */
    lemma ModelOutcomeNotFound(n: nat, id: string)
      requires ResolveId(id).Success?
      requires var u := NewModelData(ResolveId(id).value).FullUrl();
        Fetched(n, u).outcome.Success? && Contains(Fetched(n, u).outcome.value, "页面不存在")
      ensures ModelOutcome(n, id) == Failure(ModelNotFound("模型不存在: " + id))
    {
    }

    /** A search that succeeds reports the requested page, so it has a previous page exactly
        when that page is past the first. */
    lemma SearchPaging(n: nat, query: string, category: string, sortBy: string, page: int, furry: bool)
      requires SearchOutcome(n, query, category, sortBy, page, furry).Success?
      ensures var l := SearchOutcome(n, query, category, sortBy, page, furry).value;
        && (l.HasPrevPage() <==> page > 1)
        && (l.HasNextPage() <==> page < l.totalPages)
        && l.TotalCount() == |l.models|
    {
    }

    /** Every model a search lists can be fetched again by its id: the id is a UUID that
        `from_id` resolves to the same model reference. */
    lemma SearchIdsResolve(n: nat, query: string, category: string, sortBy: string, page: int, furry: bool)
      requires SearchOutcome(n, query, category, sortBy, page, furry).Success?
      ensures forall m :: m in SearchOutcome(n, query, category, sortBy, page, furry).value.models ==>
        IsUuid(m.modelId) && ResolveId(m.modelId) == Success(ModelRef(m.modelId, m.url))
    {
      var url := SearchUrl(SearchParams(query, category, sortBy, page, furry));
      var page_ := readListing(Fetched(n, url).outcome.value);
      BuildModelsUuids(CardAnchors(page_));
    }

    /** A search fails only with "page not found", a network error, the exception an attempt
        let through, or the ValueError of a card id `from_id` rejects. */
    lemma SearchOutcomeErrors(n: nat, query: string, category: string, sortBy: string, page: int, furry: bool)
      ensures var r := SearchOutcome(n, query, category, sortBy, page, furry);
        r.Failure? ==>
          r.error.ModelNotFound? || r.error.NetworkError? || r.error.Uncaught? || r.error.ValueError?
    {
      var url := SearchUrl(SearchParams(query, category, sortBy, page, furry));
      FetchFromErrors(Net(n, url), maxRetries, url, unescape, 0);
    }

    /** `get_random` gives nothing exactly when the first listing page is empty; when the
        drawn page lists models, what it gives is the drawn model, fetched by its id; and it
        never fails on the id it picked. */
    lemma RandomOutcomeProps(n: nat, pageDraw: nat, pickDraw: nat)
      ensures var r := RandomOutcome(n, pageDraw, pickDraw);
        var first := SearchOutcome(n, "", "any", "last_updated", 1, false);
        && (r.Success? && r.value.None? <==> first.Success? && first.value.models == [])
        && (r.Failure? ==> !r.error.InvalidModelID?)
        && (r.Success? && r.value.Some? ==> first.Success? && first.value.models != [])
    {
      var first := SearchOutcome(n, "", CATEGORY_ANY, SORT_LAST_UPDATED, 1, false);
      SearchOutcomeErrors(n, "", CATEGORY_ANY, SORT_LAST_UPDATED, 1, false);
      if first.Success? && first.value.models != [] {
        var p := RandomPage(first.value.totalPages, pageDraw);
        var second := SearchOutcome(n + 1, "", CATEGORY_ANY, SORT_LAST_UPDATED, p, false);
        SearchOutcomeErrors(n + 1, "", CATEGORY_ANY, SORT_LAST_UPDATED, p, false);
        if second.Success? && second.value.models != [] {
          SearchIdsResolve(n + 1, "", CATEGORY_ANY, SORT_LAST_UPDATED, p, false);
          var picked := Pick(second.value.models, pickDraw);
          assert picked in second.value.models;
          ModelOutcomeProps(n + 2, picked.modelId);
        }
      }
    }

    /** The model `get_random` fetches has the id of the model drawn from the drawn page. */
    lemma RandomModelIsDrawn(n: nat, pageDraw: nat, pickDraw: nat)
      requires var first := SearchOutcome(n, "", "any", "last_updated", 1, false);
        && first.Success? && first.value.models != []
        && var second := SearchOutcome(n + 1, "", "any", "last_updated",
                                       RandomPage(first.value.totalPages, pageDraw), false);
        && second.Success? && second.value.models != []
      requires RandomOutcome(n, pageDraw, pickDraw).Success?
      ensures var first := SearchOutcome(n, "", "any", "last_updated", 1, false);
        var second := SearchOutcome(n + 1, "", "any", "last_updated",
                                    RandomPage(first.value.totalPages, pageDraw), false);
        var r := RandomOutcome(n, pageDraw, pickDraw);
        r.value.Some? && r.value.value.modelId == Pick(second.value.models, pickDraw).modelId
    {
      var first := SearchOutcome(n, "", CATEGORY_ANY, SORT_LAST_UPDATED, 1, false);
      var p := RandomPage(first.value.totalPages, pageDraw);
      SearchIdsResolve(n + 1, "", CATEGORY_ANY, SORT_LAST_UPDATED, p, false);
      var second := SearchOutcome(n + 1, "", CATEGORY_ANY, SORT_LAST_UPDATED, p, false);
      ModelOutcomeProps(n + 2, Pick(second.value.models, pickDraw).modelId);
    }

    /** `get_random` makes one request when the first listing page fails or is empty, two
        when the drawn page fails or is empty, and three, the last for the drawn model,
        otherwise. */
    lemma RandomRequestsCount(n: nat, pageDraw: nat, pickDraw: nat)
      ensures var first := SearchOutcome(n, "", "any", "last_updated", 1, false);
        var k := RandomRequests(n, pageDraw, pickDraw);
        && (k == 1 <==> first.Failure? || first.value.models == [])
        && (k == 3 <==>
              (first.Success? && first.value.models != [] &&
               var second := SearchOutcome(n + 1, "", "any", "last_updated",
                                           RandomPage(first.value.totalPages, pageDraw), false);
               second.Success? && second.value.models != []))
    {
      var first := SearchOutcome(n, "", CATEGORY_ANY, SORT_LAST_UPDATED, 1, false);
      if first.Success? && first.value.models != [] {
        var p := RandomPage(first.value.totalPages, pageDraw);
        var second := SearchOutcome(n + 1, "", CATEGORY_ANY, SORT_LAST_UPDATED, p, false);
        if second.Success? && second.value.models != [] {
          SearchIdsResolve(n + 1, "", CATEGORY_ANY, SORT_LAST_UPDATED, p, false);
          assert Pick(second.value.models, pickDraw) in second.value.models;
        }
      }
    }

    /** Every delay in `s` lasts between 1 and `maxRetries - 1` seconds. */
    predicate Delays(s: seq<nat>) {
      forall i :: 0 <= i < |s| ==> 1 <= s[i] < maxRetries
    }

    /** The attempts one request may make, and never fewer than one. */
    function Allowed(): (r: int)
      ensures r >= 1 && r >= maxRetries
    {
      if maxRetries > 0 then maxRetries else 1
    }

    /** The attempts `k` requests may make together: `k` times `Allowed()`. */
    function AllowedFor(k: nat): int
    {
      if k == 0 then 0 else Allowed() + AllowedFor(k - 1)
    }

    lemma {:induction false} AllowedForTimes(k: nat)
      ensures AllowedFor(k) == k * Allowed()
    {
      if k > 0 {
        AllowedForTimes(k - 1);
      }
    }

    lemma DelaysAppend(a: seq<nat>, b: seq<nat>)
      requires Delays(a) && Delays(b)
      ensures Delays(a + b)
    {
      forall i | 0 <= i < |a + b|
        ensures 1 <= (a + b)[i] < maxRetries
      {
        if i >= |a| {
          assert (a + b)[i] == b[i - |a|];
        }
      }
    }

    /** A request sleeps fewer than `maxRetries` times (none when no attempt is allowed),
        each time for between 1 and `maxRetries - 1` seconds. */
    lemma FetchedSleepsBounded(n: nat, url: string)
      ensures |Fetched(n, url).sleeps| < Allowed() && Delays(Fetched(n, url).sleeps)
    {
      FetchBounds(Net(n, url), maxRetries, url, unescape);
    }

    /** So does `get_model`, which makes at most one request. */
    lemma ModelSleepsBounded(n: nat, id: string)
      ensures |ModelSleeps(n, id)| < Allowed() && Delays(ModelSleeps(n, id))
    {
      if ResolveId(id).Success? {
        FetchedSleepsBounded(n, NewModelData(ResolveId(id).value).FullUrl());
      }
    }

    /** After its first search `get_random` sleeps fewer than `maxRetries` times per request
        it makes, each time for between 1 and `maxRetries - 1` seconds. */
    lemma RandomSleepsAfterBounded(n: nat, first: Listing, pageDraw: nat, pickDraw: nat)
      requires first.totalPages >= 1 && first.models != []
      ensures var s := RandomSleepsAfter(n, first, pageDraw, pickDraw);
        |s| < AllowedFor(RandomRequestsAfter(n, first, pageDraw, pickDraw)) && Delays(s)
    {
      var p := RandomPage(first.totalPages, pageDraw);
      var k := RandomRequestsAfter(n, first, pageDraw, pickDraw);
      FetchedSleepsBounded(n, RandomPageUrl(p));
      var second := SearchOutcome(n, "", CATEGORY_ANY, SORT_LAST_UPDATED, p, false);
      if second.Success? && second.value.models != [] {
        var id := Pick(second.value.models, pickDraw).modelId;
        ModelSleepsBounded(n + 1, id);
        DelaysAppend(Fetched(n, RandomPageUrl(p)).sleeps, ModelSleeps(n + 1, id));
        if ResolveId(id).Success? {
          assert k == 2;
          assert AllowedFor(1) == Allowed();
        } else {
          assert ModelSleeps(n + 1, id) == [];
          assert k == 1;
          assert AllowedFor(1) == Allowed();
        }
      } else {
        assert k == 1;
        assert AllowedFor(1) == Allowed();
      }
    }

    /** And so over the whole of `get_random`. */
    lemma RandomSleepsBounded(n: nat, pageDraw: nat, pickDraw: nat)
      ensures var s := RandomSleeps(n, pageDraw, pickDraw);
        |s| < AllowedFor(RandomRequests(n, pageDraw, pickDraw)) && Delays(s)
      ensures |RandomSleeps(n, pageDraw, pickDraw)| < RandomRequests(n, pageDraw, pickDraw) * Allowed()
    {
      FetchedSleepsBounded(n, RandomPageUrl(1));
      var k := RandomRequests(n, pageDraw, pickDraw);
      var first := SearchOutcome(n, "", CATEGORY_ANY, SORT_LAST_UPDATED, 1, false);
      if first.Success? && first.value.models != [] {
        var rest := RandomSleepsAfter(n + 1, first.value, pageDraw, pickDraw);
        var j := RandomRequestsAfter(n + 1, first.value, pageDraw, pickDraw);
        RandomSleepsAfterBounded(n + 1, first.value, pageDraw, pickDraw);
        DelaysAppend(Fetched(n, RandomPageUrl(1)).sleeps, rest);
        assert k == 1 + j;
      } else {
        assert k == 1;
        assert AllowedFor(1) == Allowed();
      }
      BelowAllowedFor(|RandomSleeps(n, pageDraw, pickDraw)|, k);
    }

    /** A count below the attempts `k` requests may make is below `k * Allowed()`. */
    lemma BelowAllowedFor(x: int, k: nat)
      requires x < AllowedFor(k)
      ensures x < k * Allowed()
    {
      AllowedForTimes(k);
    }

    // ---------------------------------------------------------------- operations

    /** `_fetch(url)`: tries up to `maxRetries` times, sleeping `k + 1` seconds after a
        transport error on attempt `k` unless it was the last. */
    method Fetch(url: string) returns (r: Result<string, Error>)
      modifies this
      ensures requests == old(requests) + 1
      ensures r == Fetched(old(requests), url).outcome
      ensures sleeps == old(sleeps) + Fetched(old(requests), url).sleeps
    {
      var n := requests;
      requests := requests + 1;
      var slept;
      r, slept := Retry(Net(n, url), maxRetries, url, unescape);
      sleeps := sleeps + slept;
    }

    /** The retry loop of `_fetch`: attempt `k` ends with `net(k)`; a response ends the
        loop, a transport error sleeps `k + 1` seconds before the next attempt, unless it
        was the last one allowed. */
    static method Retry(net: nat -> Attempt, maxRetries: int, url: string, unescape: string -> string)
      returns (r: Result<string, Error>, slept: seq<nat>)
      ensures r == FetchFrom(net, maxRetries, url, unescape, 0).outcome
      ensures slept == FetchFrom(net, maxRetries, url, unescape, 0).sleeps
    {
      slept := [];
      var attempt: nat := 0;
      while attempt < maxRetries
        invariant slept == Backoff(attempt)
        invariant FetchFrom(net, maxRetries, url, unescape, 0).outcome
          == FetchFrom(net, maxRetries, url, unescape, attempt).outcome
        invariant FetchFrom(net, maxRetries, url, unescape, 0).sleeps
          == Backoff(attempt) + FetchFrom(net, maxRetries, url, unescape, attempt).sleeps
        decreases maxRetries - attempt
      {
        match net(attempt)
        case Response(status, body) =>
          if status == 404 {
            return Failure(ModelNotFound("页面不存在: " + url)), slept;
          }
          if status != 200 {
            return Failure(NetworkError("HTTP " + IntToString(status) + ": " + url)), slept;
          }
          return Success(unescape(body)), slept;
        case Escaped(e) =>
          return Failure(Uncaught(e)), slept;
        case TransportError(e) =>
          if attempt == maxRetries - 1 {
            return Failure(NetworkError("网络请求失败: " + e)), slept;
          }
          RetryStep(net, maxRetries, url, unescape, attempt);
          slept := slept + [attempt + 1];
        attempt := attempt + 1;
      }
      return Failure(NetworkError("请求失败: " + url)), slept;
    }

    /** `_parse_model_page(html, model)`: fills `model` in place from its page. */
    method ParseModelPage(html: string, model: Model)
      modifies model
      ensures model.Data() == ApplyDetail(old(model.Data()), readDetail(html), html)
    {
      var filled := DetailFields(model.Data(), readDetail(html), html);
      Store(model, filled);
    }

    /** Writes the fields a model page fills in into `model`, which keeps its id, link and
        description. */
    static method Store(model: Model, filled: ModelData)
      requires filled.modelId == model.modelId && filled.url == model.url
      requires filled.description == model.description
      modifies model
      ensures model.Data() == filled
    {
      SetHeading(model, filled);
      SetCounts(model, filled);
      SetDates(model, filled);
      SetBody(model, filled);
    }

    /** The page's title and author, written into `model`. */
    static method SetHeading(model: Model, filled: ModelData)
      modifies model`title, model`author
      ensures model.title == filled.title && model.author == filled.author
    {
      model.title, model.author := filled.title, filled.author;
    }

    /** The page's thumbnail and counters, written into `model`. */
    static method SetCounts(model: Model, filled: ModelData)
      modifies model`thumbnail, model`views, model`downloads
      ensures model.thumbnail == filled.thumbnail && model.views == filled.views
      ensures model.downloads == filled.downloads
    {
      model.thumbnail, model.views, model.downloads := filled.thumbnail, filled.views, filled.downloads;
    }

    /** The page's dates and category, written into `model`. */
    static method SetDates(model: Model, filled: ModelData)
      modifies model`posted, model`published, model`updated, model`category
      ensures model.posted == filled.posted && model.published == filled.published
      ensures model.updated == filled.updated && model.category == filled.category
    {
      model.posted, model.published := filled.posted, filled.published;
      model.updated, model.category := filled.updated, filled.category;
    }

    /** The page's licence, tags and HTML, written into `model`. */
    static method SetBody(model: Model, filled: ModelData)
      modifies model`licence, model`tags, model`htmlContent
      ensures model.licence == filled.licence && model.tags == filled.tags
      ensures model.htmlContent == filled.htmlContent
    {
      model.licence, model.tags, model.htmlContent := filled.licence, filled.tags, filled.htmlContent;
    }

    /** The steps of the detail parser, one lookup after the other, on the contents `d` of
        the model being filled. */
    static method DetailFields(d: ModelData, p: DetailPage, html: string) returns (filled: ModelData)
      ensures filled == ApplyDetail(d, p, html)
      ensures filled.modelId == d.modelId && filled.url == d.url && filled.description == d.description
    {
      var title, author := d.title, d.author;
      if p.h1.Some? {
        title := p.h1.value;
      }
      if p.authorMatch.Some? {
        author := Some(Author(Strip(p.authorMatch.value.name), p.authorMatch.value.href));
      }
      var thumbnail := Thumbnail(p, d.thumbnail);
      var views := Counter(p.viewsAt, d.views);
      var downloads := Counter(p.downloadsAt, d.downloads);
      var posted, published, updated, category := d.posted, d.published, d.updated, d.category;
      if p.posted.Some? {
        posted := Strip(p.posted.value);
      }
      if p.published.Some? {
        published := Strip(p.published.value);
      }
      if p.updated.Some? {
        updated := Strip(p.updated.value);
      }
      if p.category.Some? {
        category := Strip(p.category.value);
      }
      var licence := d.licence;
      if p.licenceText.Some? {
        licence := Take(p.licenceText.value, 100);
      }
      var tags := Take(p.tagTexts, 10);
      filled := d.(title := title, author := author, thumbnail := thumbnail, views := views,
                   downloads := downloads, posted := posted, published := published, updated := updated,
                   category := category, licence := licence, tags := tags, htmlContent := html);
    }

    /** The thumbnail step of the detail parser: the `og:image` content, else the `src` of
        the first image the loop accepts, else `current`. */
    static method Thumbnail(p: DetailPage, current: string) returns (thumbnail: string)
      ensures thumbnail == DetailThumbnail(current, p)
    {
      thumbnail := current;
      if p.ogImage.Some? {
        thumbnail := p.ogImage.value;
      } else {
        var i := 0;
        while i < |p.imgSrcs|
          invariant 0 <= i <= |p.imgSrcs|
          invariant forall j :: 0 <= j < i ==> !IsThumbCandidate(p.imgSrcs[j])
        {
          var src := p.imgSrcs[i];
          if Contains(src, "project") || Contains(LowerAscii(src), "thumbnail") {
            thumbnail := src;
            assert FirstThumbImage(p.imgSrcs) == Some(i);
            return;
          }
          i := i + 1;
        }
      }
    }

    /** One counter step of the detail parser: the number `(\d+)` captures after the first
        label it matches, with its separators removed; `current` when no label matches. */
    static method Counter(ts: seq<string>, current: int) returns (value: int)
      ensures value == ReadCount(current, ts, CaptureAsWritten)
    {
      value := current;
      var m := FirstMatch(ts, CaptureAsWritten);
      if m.Some? {
        var v := ParseDigits(RemoveChar(CaptureAsWritten(ts[m.value]).value, ','));
        if v.Some? {
          value := v.value;
        }
      }
    }

    /** `_parse_search_results(html)`: the listing of a page, or the ValueError of the
        first card whose id `from_id` rejects. */
    method ParseSearchResults(html: string) returns (r: Result<SearchResult, Error>)
      ensures ParseListing(readListing(html)).Failure? ==> r == Failure(ParseListing(readListing(html)).error)
      ensures ParseListing(readListing(html)).Success? ==>
        r.Success? && fresh(r.value) && r.value.Snapshot() == ParseListing(readListing(html)).value
    {
      var page := readListing(html);
      var built := BuildCardModels(CardAnchors(page));
      if built.Failure? {
        return Failure(built.error);
      }
      var result := new SearchResult();
      result.models := built.value;
      var links := PageLinks(page);
      if links != [] {
        var maxPage := MaxPageOf(links);
        result.totalPages := maxPage;
      }
      var active := FirstActive(page);
      if active.Some? {
        var pageMatch := PageParam(page[active.value].href);
        if pageMatch.Some? {
          result.currentPage := pageMatch.value;
        }
      }
      return Success(result);
    }

    /** The card loop of `_parse_search_results`: the models of `cards`, one per id not
        seen before, or the ValueError of the first card whose id `from_id` rejects. */
    static method BuildCardModels(cards: seq<Anchor>) returns (r: Result<seq<ModelData>, Error>)
      ensures r == BuildModels(cards)
    {
      var seen: set<string> := {};
      var models: seq<ModelData> := [];
      var i := 0;
      while i < |cards|
        invariant 0 <= i <= |cards|
        invariant seen == Seen(cards[..i])
        invariant BuildModels(cards[..i]) == Success(models)
      {
        var failed;
        seen, models, failed := CardStep(cards, i, seen, models);
        if failed.Some? {
          return Failure(failed.value);
        }
        i := i + 1;
      }
      assert cards[..i] == cards;
      return Success(models);
    }

    /** One turn of the card loop: a card whose id was not seen adds its id, and its model
        or the error that ends the parse; any other card changes nothing. */
    static method CardStep(cards: seq<Anchor>, i: nat, seen: set<string>, models: seq<ModelData>)
      returns (seen': set<string>, models': seq<ModelData>, failed: Option<Error>)
      requires i < |cards|
      requires seen == Seen(cards[..i]) && BuildModels(cards[..i]) == Success(models)
      ensures failed.None? ==> seen' == Seen(cards[..i + 1]) && BuildModels(cards[..i + 1]) == Success(models')
      ensures failed.Some? ==> BuildModels(cards) == Failure(failed.value)
    {
      seen', models', failed := seen, models, None;
      var c := cards[i];
      var key := CardKey(c.href);
      if key.Some? && key.value !in seen {
        var id := key.value;
        AddStep(cards, i);
        seen' := seen + {id};
        var made := NewCardModel(c, id);
        if made.Failure? {
          BuildModelsFailureStays(cards, i + 1);
          return seen', models', Some(made.error);
        }
        models' := models + [made.value];
      } else {
        SkipStep(cards, i);
      }
    }

    /** The title, thumbnail and author a card sets on a model just built by `from_id`:
        the heading when longer than 2 characters, else the card's text cut to 50
        characters when shorter than 100; the image's `src` or `data-src`; the next author
        link with a name. */
    static method CardFields(c: Anchor, title0: string, thumbnail0: string, author0: Option<Author>)
      returns (title: string, thumbnail: string, author: Option<Author>)
      requires title0 == "" && thumbnail0 == "" && author0 == None
      ensures title == CardTitle(c) && thumbnail == CardThumbnail(c) && author == CardAuthor(c)
    {
      title, thumbnail, author := title0, thumbnail0, author0;
      if c.heading.Some? {
        var t := c.heading.value;
        if t != "" && |t| > 2 {
          title := t;
        }
      }
      if title == "" {
        var text := c.text;
        if text != "" && |text| < 100 {
          title := Take(text, 50);
        }
      }
      if c.image.Some? {
        thumbnail := if c.image.value.src != "" then c.image.value.src else c.image.value.dataSrc;
      }
      if c.nextAuthor.Some? {
        var name := c.nextAuthor.value.name;
        var href := c.nextAuthor.value.href;
        if name != "" {
          author := Some(Author(name, href));
        }
      }
    }

    /** The body of the card loop for a card whose id `id` is new: `Model.from_id(id)` with
        the card's title, thumbnail and author set in place. */
    static method NewCardModel(c: Anchor, id: string) returns (r: Result<ModelData, Error>)
      ensures r == CardModel(c, id)
    {
      var made := Model.FromId(id);
      if made.Failure? {
        return Failure(made.error);
      }
      var model := made.value;
      var title, thumbnail, author := CardFields(c, model.title, model.thumbnail, model.author);
      model.SetCardFields(title, thumbnail, author);
      CardModelBuilt(c, id);
      return Success(model.Data());
    }

    /** The pagination loop: the largest page number among the links, never below 1. */
    static method MaxPageOf(links: seq<Anchor>) returns (maxPage: int)
      ensures maxPage == MaxPage(links)
    {
      maxPage := 1;
      for j := 0 to |links|
        invariant maxPage == MaxPage(links[..j])
      {
        assert links[..j + 1][..j] == links[..j];
        var pageMatch := PageParam(links[j].href);
        if pageMatch.Some? {
          maxPage := if pageMatch.value > maxPage then pageMatch.value else maxPage;
        }
      }
      assert links[..|links|] == links;
    }

    /** `get_model(id)` */
    method GetModel(id: string) returns (r: Result<Model, Error>)
      modifies this
      ensures requests == old(requests) + (if ResolveId(id).Success? then 1 else 0)
      ensures sleeps == old(sleeps) + ModelSleeps(old(requests), id)
      ensures r.Failure? <==> ModelOutcome(old(requests), id).Failure?
      ensures r.Failure? ==> r.error == ModelOutcome(old(requests), id).error
      ensures r.Success? ==> fresh(r.value) && r.value.Data() == ModelOutcome(old(requests), id).value
    {
      var made := Model.FromId(id);
      if made.Failure? {
        return Failure(InvalidModelID(made.error.msg));
      }
      var model := made.value;
      ghost var built := model.Data();
      var html := Fetch(model.Data().FullUrl());
      if html.Failure? {
        return Failure(html.error);
      }
      ModelFetched(old(requests), id, html.value);
      if Contains(html.value, "Page not Found") || Contains(html.value, "页面不存在") {
        return Failure(ModelNotFound("模型不存在: " + id));
      }
      ParseModelPage(html.value, model);
      assert model.Data() == ApplyDetail(built, readDetail(html.value), html.value);
      return Success(model);
    }

    /** `search(query, category, sort_by, page, furry)` */
    method Search(query: string, category: string, sortBy: string, page: int, furry: bool)
      returns (r: Result<SearchResult, Error>)
      modifies this
      ensures requests == old(requests) + 1
      ensures sleeps == old(sleeps) + Fetched(old(requests), SearchUrl(SearchParams(query, category, sortBy, page, furry))).sleeps
      ensures r.Failure? <==> SearchOutcome(old(requests), query, category, sortBy, page, furry).Failure?
      ensures r.Failure? ==> r.error == SearchOutcome(old(requests), query, category, sortBy, page, furry).error
      ensures r.Success? ==>
        fresh(r.value) && r.value.Snapshot() == SearchOutcome(old(requests), query, category, sortBy, page, furry).value
    {
      var params := BuildParams(query, category, sortBy, page, furry);
      var url := ROOT_URL + "/";
      if params != [] {
        url := url + "?" + urlencode(params);
      }
      var html := Fetch(url);
      if html.Failure? {
        return Failure(html.error);
      }
      var parsed := ParseSearchResults(html.value);
      if parsed.Failure? {
        return Failure(parsed.error);
      }
      var result := parsed.value;
      result.query := query;
      result.currentPage := page;
      return Success(result);
    }

    /** The parameter building of `search`, one parameter after the other. */
    static method BuildParams(query: string, category: string, sortBy: string, page: int, furry: bool)
      returns (params: seq<(string, string)>)
      ensures params == SearchParams(query, category, sortBy, page, furry)
    {
      ghost var q := if query != "" then [("q", query)] else [];
      ghost var c := if category != CATEGORY_ANY then [("category", category)] else [];
      ghost var s := if sortBy != SORT_LAST_UPDATED then [("sort", sortBy)] else [];
      ghost var p := if page > 1 then [("page", IntToString(page))] else [];
      params := [];
      if query != "" {
        params := params + [("q", query)];
      }
      assert params == q;
      if category != CATEGORY_ANY {
        params := params + [("category", category)];
      }
      assert params == q + c;
      if sortBy != SORT_LAST_UPDATED {
        params := params + [("sort", sortBy)];
      }
      assert params == q + c + s;
      if page > 1 {
        params := params + [("page", IntToString(page))];
      }
      assert params == q + c + s + p;
      if furry {
        params := params + [("furry", "on")];
      }
    }

    /** `get_latest(page, category)`: the newest models first. */
    method GetLatest(page: int, category: string) returns (r: Result<SearchResult, Error>)
      modifies this
      ensures requests == old(requests) + 1
      ensures sleeps == old(sleeps) + Fetched(old(requests), SearchUrl(SearchParams("", category, "newest", page, false))).sleeps
      ensures r.Failure? <==> SearchOutcome(old(requests), "", category, "newest", page, false).Failure?
      ensures r.Failure? ==> r.error == SearchOutcome(old(requests), "", category, "newest", page, false).error
      ensures r.Success? ==>
        fresh(r.value) && r.value.Snapshot() == SearchOutcome(old(requests), "", category, "newest", page, false).value
    {
      r := Search("", category, SORT_NEWEST, page, false);
    }

    /** `get_popular(page, category)`: the most viewed models first. */
    method GetPopular(page: int, category: string) returns (r: Result<SearchResult, Error>)
      modifies this
      ensures requests == old(requests) + 1
      ensures sleeps == old(sleeps) + Fetched(old(requests), SearchUrl(SearchParams("", category, "most_viewed", page, false))).sleeps
      ensures r.Failure? <==> SearchOutcome(old(requests), "", category, "most_viewed", page, false).Failure?
      ensures r.Failure? ==> r.error == SearchOutcome(old(requests), "", category, "most_viewed", page, false).error
      ensures r.Success? ==>
        fresh(r.value) && r.value.Snapshot() == SearchOutcome(old(requests), "", category, "most_viewed", page, false).value
    {
      r := Search("", category, SORT_MOST_VIEWED, page, false);
    }

    /** `get_random()`, with `pageDraw` and `pickDraw` standing for the random module's
        draws. */
    method GetRandom(pageDraw: nat, pickDraw: nat) returns (r: Result<Option<Model>, Error>)
      modifies this
      ensures requests == old(requests) + RandomRequests(old(requests), pageDraw, pickDraw)
      ensures sleeps == old(sleeps) + RandomSleeps(old(requests), pageDraw, pickDraw)
      ensures Answers(r, RandomOutcome(old(requests), pageDraw, pickDraw))
      ensures r.Success? && r.value.Some? ==> fresh(r.value.value)
    {
      var first := Search("", CATEGORY_ANY, SORT_LAST_UPDATED, 1, false);
      if first.Failure? {
        return Failure(first.error);
      }
      var result := first.value;
      if result.models == [] {
        return Success(None);
      }
      ghost var slept := Fetched(old(requests), RandomPageUrl(1)).sleeps;
      assert sleeps == old(sleeps) + slept;
      var listed := result.Snapshot();
      RandomContinues(old(requests), pageDraw, pickDraw, listed);
      r := RandomRest(listed, pageDraw, pickDraw);
      AppendAssoc(old(sleeps), slept, RandomSleepsAfter(old(requests) + 1, listed, pageDraw, pickDraw));
    }

    /** The rest of `get_random()` once the first search listed `first`: the search of a
        drawn page, then `get_model` of the model drawn from it, or a copy of one drawn from
        `first` when that page lists nothing. */
    method RandomRest(first: Listing, pageDraw: nat, pickDraw: nat) returns (r: Result<Option<Model>, Error>)
      requires first.totalPages >= 1 && first.models != []
      modifies this
      ensures requests == old(requests) + RandomRequestsAfter(old(requests), first, pageDraw, pickDraw)
      ensures sleeps == old(sleeps) + RandomSleepsAfter(old(requests), first, pageDraw, pickDraw)
      ensures Answers(r, RandomAfter(old(requests), first, pageDraw, pickDraw))
      ensures r.Success? ==> r.value.Some? && fresh(r.value.value)
    {
      var n := requests;
      var randomPage := RandomPage(first.totalPages, pageDraw);
      var second := Search("", CATEGORY_ANY, SORT_LAST_UPDATED, randomPage, false);
      if second.Failure? {
        return Failure(second.error);
      }
      var pageResult := second.value;
      if pageResult.models == [] {
        var m := new Model.Of(Pick(first.models, pickDraw));
        return Success(Some(m));
      }
      ghost var s1 := sleeps;
      var randomModel := Pick(pageResult.models, pickDraw);
      var got := GetModel(randomModel.modelId);
      AppendAssoc(old(sleeps), s1[|old(sleeps)|..], sleeps[|s1|..]);
      if got.Failure? {
        return Failure(got.error);
      }
      return Success(Some(got.value));
    }
  }

  /** `r`, what `get_random` returns, stands for the outcome `o`: the same error, nothing,
      or a model whose fields are those of `o`'s model. */
  predicate Answers(r: Result<Option<Model>, Error>, o: Result<Option<ModelData>, Error>)
    reads if r.Success? && r.value.Some? then {r.value.value} else {}
  {
    match r
    case Failure(e) => o == Failure(e)
    case Success(None) => o == Success(None)
    case Success(Some(m)) => o.Success? && o.value.Some? && m.Data() == o.value.value
  }

  /** Once the cards up to `i` fail to build, the whole list fails with the same error. */
  lemma {:induction false} BuildModelsFailureStays(cards: seq<Anchor>, i: nat)
    requires i <= |cards|
    requires BuildModels(cards[..i]).Failure?
    ensures BuildModels(cards) == BuildModels(cards[..i])
    decreases |cards| - i
  {
    if i < |cards| {
      assert cards[..i + 1][..i] == cards[..i];
      BuildModelsFailureStays(cards, i + 1);
    } else {
      assert cards[..i] == cards;
    }
  }
}
