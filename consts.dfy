/** Module-level constants of the scraper: the site root, the category and sort codes the
    search form accepts, and the two regular expressions that find a model id in a URL. */
module Consts {
  import opened Wrappers
  import opened Text

  const ROOT_URL := "https://smutba.se"
  const MODEL_URL := "/project/"

  /** Every URL the scraper builds from the root is absolute in the sense of the
      `startswith("http")` test used by `full_url`, `thumbnail_url` and `profile_url`. */
  lemma RootUrlIsAbsolute(path: string)
    ensures StartsWith(ROOT_URL + path, "http")
  {
    assert (ROOT_URL + path)[..4] == ROOT_URL[..4];
  }

  // ------------------------------------------------------------------ categories

  const CATEGORY_ANY := "any"
  const CATEGORY_MODELS := "1"
  const CATEGORY_TEXTURES := "2"
  const CATEGORY_SCENERIES := "3"
  const CATEGORY_HDRIS := "4"
  const CATEGORY_OTHER := "5"

  /** `Category.all()`: category name to the code the site expects. */
  function CategoryAll(): (m: map<string, string>)
    ensures m.Keys == {"any", "models", "textures", "sceneries", "hdris", "other"}
    ensures m.Values == {"any", "1", "2", "3", "4", "5"}
    ensures m["any"] == "any" && m["models"] == "1" && m["textures"] == "2"
    ensures m["sceneries"] == "3" && m["hdris"] == "4" && m["other"] == "5"
  {
    map["any" := CATEGORY_ANY, "models" := CATEGORY_MODELS, "textures" := CATEGORY_TEXTURES,
        "sceneries" := CATEGORY_SCENERIES, "hdris" := CATEGORY_HDRIS, "other" := CATEGORY_OTHER]
  }

  /** No two category names share a code, so the code identifies the category. */
  lemma CategoryCodesDistinct(a: string, b: string)
    requires a in CategoryAll() && b in CategoryAll() && a != b
    ensures CategoryAll()[a] != CategoryAll()[b]
  {
  }

  // ------------------------------------------------------------------ sort orders

  const SORT_LAST_UPDATED := "last_updated"
  const SORT_NEWEST := "newest"
  const SORT_OLDEST := "oldest"
  const SORT_MOST_VIEWED := "most_viewed"
  const SORT_MOST_DOWNLOADED := "most_downloaded"

  /** `SortBy.all()`: five sort names, each mapped to itself. */
  function SortByAll(): (m: map<string, string>)
    ensures m.Keys == {"last_updated", "newest", "oldest", "most_viewed", "most_downloaded"}
    ensures forall k :: k in m ==> m[k] == k
  {
    map["last_updated" := SORT_LAST_UPDATED, "newest" := SORT_NEWEST, "oldest" := SORT_OLDEST,
        "most_viewed" := SORT_MOST_VIEWED, "most_downloaded" := SORT_MOST_DOWNLOADED]
  }

  // ------------------------------------------------------------------ model id regexes

  /** `[a-f0-9]` (case-sensitive) */
  predicate IsLowerHex(c: char) {
    '0' <= c <= '9' || 'a' <= c <= 'f'
  }

  /** `[a-f0-9-]` (case-sensitive) */
  predicate IsIdChar(c: char) {
    IsLowerHex(c) || c == '-'
  }

  /** The hyphen positions of an 8-4-4-4-12 UUID. */
  predicate IsHyphenPos(i: int) {
    i == 8 || i == 13 || i == 18 || i == 23
  }

  /** `[a-f0-9]{8}-[a-f0-9]{4}-[a-f0-9]{4}-[a-f0-9]{4}-[a-f0-9]{12}` matches all of `u`. */
  predicate IsLowerUuid(u: string) {
    |u| == 36 && forall i :: 0 <= i < 36 ==> if IsHyphenPos(i) then u[i] == '-' else IsLowerHex(u[i])
  }

  /** REGEX_MODEL_ID, `/project/([a-f0-9-]{36})`, matches at index `p` of `s`. */
  predicate ModelIdAt(s: string, p: nat) {
    OccursAt(s, MODEL_URL, p) && p + 45 <= |s| && forall k :: p + 9 <= k < p + 45 ==> IsIdChar(s[k])
  }

  /** REGEX_MODEL_ID_ALT, the same with an 8-4-4-4-12 capture, matches at index `p`. */
  predicate AltIdAt(s: string, p: nat) {
    OccursAt(s, MODEL_URL, p) && p + 45 <= |s| && IsLowerUuid(s[p + 9..p + 45])
  }

  /** Where `REGEX_MODEL_ID.search(s)` matches: the leftmost index, if any. */
  function ModelIdPos(s: string): (r: Option<nat>)
    ensures r.Some? ==> ModelIdAt(s, r.value) && forall q: nat :: q < r.value ==> !ModelIdAt(s, q)
    ensures r.None? ==> forall q: nat :: !ModelIdAt(s, q)
  {
    var P := (p: nat) => ModelIdAt(s, p);
    assert forall q: nat :: P(q) == ModelIdAt(s, q);
    FindFirst(0, |s|, P)
  }

  /** `REGEX_MODEL_ID.search(s).group(1)`: the 36 characters after the leftmost match. */
  function SearchModelId(s: string): (r: Option<string>)
    ensures r.Some? ==> |r.value| == 36 && forall i :: 0 <= i < 36 ==> IsIdChar(r.value[i])
  {
    match ModelIdPos(s)
    case None => None
    case Some(p) => Some(s[p + 9..p + 45])
  }

  /** Where `REGEX_MODEL_ID_ALT.search(s)` matches. */
  function AltIdPos(s: string): (r: Option<nat>)
    ensures r.Some? ==> AltIdAt(s, r.value) && forall q: nat :: q < r.value ==> !AltIdAt(s, q)
    ensures r.None? ==> forall q: nat :: !AltIdAt(s, q)
  {
    var P := (p: nat) => AltIdAt(s, p);
    assert forall q: nat :: P(q) == AltIdAt(s, q);
    FindFirst(0, |s|, P)
  }

  /** `REGEX_MODEL_ID_ALT.search(s).group(1)` */
  function SearchAltId(s: string): Option<string>
  {
    match AltIdPos(s)
    case None => None
    case Some(p) => Some(s[p + 9..p + 45])
  }

  /** An 8-4-4-4-12 capture is 36 characters of `[a-f0-9-]`, so wherever the ALT pattern
      matches, REGEX_MODEL_ID matches too, with the same capture. */
  lemma AltMatchIsModelIdMatch(s: string, p: nat)
    requires AltIdAt(s, p)
    ensures ModelIdAt(s, p)
  {
    var u := s[p + 9..p + 45];
    forall k | p + 9 <= k < p + 45 ensures IsIdChar(s[k]) {
      assert s[k] == u[k - p - 9];
    }
  }

  /** Hence `REGEX_MODEL_ID.search(h) or REGEX_MODEL_ID_ALT.search(h)` is just the first
      search: the ALT fallback never finds anything the first pattern missed. */
  lemma AltFallbackNeverAdds(s: string)
    ensures SearchModelId(s).None? ==> SearchAltId(s).None?
    ensures (if SearchModelId(s).Some? then SearchModelId(s) else SearchAltId(s)) == SearchModelId(s)
  {
    var a := AltIdPos(s);
    if a.Some? {
      AltMatchIsModelIdMatch(s, a.value);
    }
  }

  /** REGEX_MODEL_ID does not check the UUID shape: 36 hyphens after `/project/` match. */
  lemma HyphensMatchModelId()
    ensures var h := seq(36, _ => '-');
            SearchModelId(MODEL_URL + h) == Some(h) && !IsLowerUuid(h)
  {
    var h := seq(36, _ => '-');
    var s := MODEL_URL + h;
    assert s[..9] == MODEL_URL;
    assert ModelIdAt(s, 0);
    assert s[9..45] == h;
    assert !IsLowerHex(h[0]);
  }
}
