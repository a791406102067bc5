/** The scraper's data model: an author, a catalogue entry ("model") and one page of search
    results, with the rules that turn a bare id or a URL into a model's id and canonical
    URL, and the plain-text summaries handed to the chat host. */
module Models {
  import opened Wrappers
  import opened Text
  import opened Consts
  import opened Errors
  import opened Urls

  // ------------------------------------------------------------------ URLs

  /** `f"{ROOT_URL}/project/{id}/"` */
  function CanonicalUrl(id: string): (r: string)
    ensures StartsWith(r, "http")
  {
    RootUrlIsAbsolute(MODEL_URL + id + "/");
    assert ROOT_URL + MODEL_URL + id + "/" == ROOT_URL + (MODEL_URL + id + "/");
    ROOT_URL + MODEL_URL + id + "/"
  }

  // ------------------------------------------------------------------ Author

  /** An uploader: a display name and a profile link, relative or absolute. */
  datatype Author = Author(name: string, url: string) {
    /** `profile_url`: the link made absolute, or "" when there is none. */
    function ProfileUrl(): (r: string)
      ensures StartsWith(url, "http") ==> r == url
      ensures r == "" <==> url == ""
      ensures r == url || StartsWith(r, "https://")
    {
      if StartsWith(url, "http") then url else if url != "" then JoinRoot(url) else ""
    }
  }

  // ------------------------------------------------------------------ model ids

  /** `[a-f0-9]` with `re.I`: a hex digit of either case. */
  predicate IsHex(c: char) {
    IsLowerHex(c) || 'A' <= c <= 'F'
  }

  /** `^[a-f0-9]{8}-[a-f0-9]{4}-[a-f0-9]{4}-[a-f0-9]{4}-[a-f0-9]{12}$` with `re.I`. */
  predicate IsUuid(u: string) {
    |u| == 36 && forall i :: 0 <= i < 36 ==> if IsHyphenPos(i) then u[i] == '-' else IsHex(u[i])
  }

  /** The first `/` at or after index `from`. */
  function SlashFrom(s: string, from: nat): (r: Option<nat>)
    ensures r.Some? ==> from <= r.value < |s| && s[r.value] == '/'
    ensures r.Some? ==> forall k :: from <= k < r.value ==> s[k] != '/'
    ensures r.None? ==> forall k :: from <= k < |s| ==> s[k] != '/'
  {
    var P := (k: nat) => k < |s| && s[k] == '/';
    assert forall k: nat :: P(k) == (k < |s| && s[k] == '/');
    FindFirst(from, |s|, P)
  }

  /** The loose pattern `/project/([^/]+)/` matches at index `p`. */
  predicate LooseAt(s: string, p: nat) {
    OccursAt(s, MODEL_URL, p) && SlashFrom(s, p + 9).Some? && SlashFrom(s, p + 9).value > p + 9
  }

  function LoosePos(s: string): (r: Option<nat>)
    ensures r.Some? ==> LooseAt(s, r.value) && forall q: nat :: q < r.value ==> !LooseAt(s, q)
    ensures r.None? ==> forall q: nat :: !LooseAt(s, q)
  {
    var P := (p: nat) => LooseAt(s, p);
    assert forall q: nat :: P(q) == LooseAt(s, q);
    FindFirst(0, |s|, P)
  }

  /** `re.search(r'/project/([^/]+)/', s).group(1)`: a non-empty segment without `/`. */
  function SearchLoose(s: string): (r: Option<string>)
    ensures r.Some? ==> r.value != [] && '/' !in r.value
  {
    match LoosePos(s)
    case None => None
    case Some(p) => Some(s[p + 9..SlashFrom(s, p + 9).value])
  }

  /** Both URL patterns begin with `/project/`, so a string they match contains a `/`. */
  lemma UrlMatchHasSlash(s: string)
    ensures SearchModelId(s).Some? || SearchLoose(s).Some? ==> '/' in s
  {
    if ModelIdPos(s).Some? {
      var p := ModelIdPos(s).value;
      assert s[p] == s[p..p + 9][0];
    } else if LoosePos(s).Some? {
      var p := LoosePos(s).value;
      assert s[p] == s[p..p + 9][0];
    }
  }

  /** The id and canonical URL a model is created with. */
  datatype ModelRef = ModelRef(modelId: string, url: string)

  /** `Model.from_id`: the stripped input itself when it is a UUID (of either case, kept
      as given), else the first REGEX_MODEL_ID capture, else the first loose
      `/project/<segment>/` capture; the URL is always the canonical one. */
  function ResolveId(input: string): (r: Result<ModelRef, Error>)
    ensures r.Success? ==> r.value.modelId != [] && '/' !in r.value.modelId
    ensures r.Success? ==> r.value.url == CanonicalUrl(r.value.modelId)
    ensures IsUuid(Strip(input)) ==> r == Success(ModelRef(Strip(input), CanonicalUrl(Strip(input))))
    ensures r.Failure? <==>
      !IsUuid(Strip(input)) && SearchModelId(Strip(input)).None? && SearchLoose(Strip(input)).None?
    ensures r.Failure? ==> r.error.ValueError?
  {
    var id := Strip(input);
    if IsUuid(id) then
      UuidHasNoSlash(id);
      Success(ModelRef(id, CanonicalUrl(id)))
    else match SearchModelId(id) {
      case Some(c) =>
        IdHasNoSlash(c);
        Success(ModelRef(c, CanonicalUrl(c)))
      case None => match SearchLoose(id) {
        case Some(c) => Success(ModelRef(c, CanonicalUrl(c)))
        case None => Failure(ValueError("无效的模型ID: " + id))
      }
    }
  }

  lemma UuidHasNoSlash(u: string)
    requires IsUuid(u)
    ensures u != [] && '/' !in u
  {
    forall i | 0 <= i < |u|
      ensures u[i] != '/'
    {
      if !IsHyphenPos(i) {
        HexIsNotSlash(u[i]);
      }
    }
  }

  lemma HexIsNotSlash(c: char)
    requires IsHex(c)
    ensures c != '/'
  {
  }

  lemma IdHasNoSlash(c: string)
    requires |c| == 36 && forall i :: 0 <= i < 36 ==> IsIdChar(c[i])
    ensures c != [] && '/' !in c
  {
    forall i | 0 <= i < |c|
      ensures c[i] != '/'
    {
      assert IsIdChar(c[i]);
    }
  }

  /** The tiers are tried in order, each only when the ones before it found nothing. */
  lemma ResolveIdTierOrder(input: string)
    ensures var t := Strip(input);
      && (!IsUuid(t) && SearchModelId(t).Some? ==>
            ResolveId(input) == Success(ModelRef(SearchModelId(t).value, CanonicalUrl(SearchModelId(t).value))))
      && (!IsUuid(t) && SearchModelId(t).None? && SearchLoose(t).Some? ==>
            ResolveId(input) == Success(ModelRef(SearchLoose(t).value, CanonicalUrl(SearchLoose(t).value))))
  {
  }

  /** For input without `/`, only the whole-string tier can succeed. */
  lemma ResolveIdWithoutSlash(input: string)
    requires '/' !in input
    ensures ResolveId(input).Success? <==> IsUuid(Strip(input))
  {
    UrlMatchHasSlash(Strip(input));
  }

  /** "not-a-valid-id" is rejected with a ValueError. */
  lemma ResolveIdRejectsPlainWord()
    ensures ResolveId("not-a-valid-id").Failure?
    ensures ResolveId("not-a-valid-id").error.ValueError?
  {
    ResolveIdWithoutSlash("not-a-valid-id");
  }

  /** Feeding a resolved id back to `from_id` (as `get_random` does) gives the same model
      exactly when that id is a UUID; a URL-derived id of any other shape is rejected or
      changed on the second pass. */
  lemma ResolveIdStable(input: string)
    requires ResolveId(input).Success?
    ensures var r := ResolveId(input).value;
      ResolveId(r.modelId) == Success(r) <==> IsUuid(r.modelId)
  {
    var r := ResolveId(input).value;
    var id := r.modelId;
    ResolveIdWithoutSlash(id);
    if IsUuid(id) {
      UuidIsStripped(id);
    }
  }

  /** A UUID has no white space to strip. */
  lemma UuidIsStripped(u: string)
    requires IsUuid(u)
    ensures Strip(u) == u
  {
    assert !IsHyphenPos(0) && !IsHyphenPos(35);
    HexIsNotSpace(u[0]);
    HexIsNotSpace(u[35]);
  }

  lemma HexIsNotSpace(c: char)
    requires IsHex(c)
    ensures !IsSpace(c)
  {
  }

  /** `Model.from_url`: only the two URL tiers; the given URL is kept verbatim. */
  function ResolveUrl(url: string): (r: Result<ModelRef, Error>)
    ensures r.Success? ==> r.value.url == url && r.value.modelId != [] && '/' !in r.value.modelId
    ensures r.Failure? <==> SearchModelId(url).None? && SearchLoose(url).None?
    ensures r.Failure? ==> r.error.ValueError?
  {
    match SearchModelId(url) {
      case Some(c) =>
        assert forall i :: 0 <= i < |c| ==> IsIdChar(c[i]);
        Success(ModelRef(c, url))
      case None => match SearchLoose(url) {
        case Some(c) => Success(ModelRef(c, url))
        case None => Failure(ValueError("无效的模型URL: " + url))
      }
    }
  }

  /** The two URL tiers pick the same id whichever way in: `from_url` and `from_id` on a
      URL that is not itself a UUID agree on the id and differ only in the URL kept. */
  lemma ResolveUrlAgreesWithResolveId(url: string)
    requires Strip(url) == url && !IsUuid(url)
    ensures ResolveUrl(url).Success? <==> ResolveId(url).Success?
    ensures ResolveUrl(url).Success? ==>
      ResolveId(url).value == ModelRef(ResolveUrl(url).value.modelId, CanonicalUrl(ResolveUrl(url).value.modelId))
  {
    var t := Strip(url);
    assert t == url;
    match SearchModelId(url) {
      case Some(c) =>
        assert ResolveUrl(url) == Success(ModelRef(c, url));
        assert ResolveId(url) == Success(ModelRef(c, CanonicalUrl(c)));
      case None =>
        match SearchLoose(url) {
          case Some(c) =>
            assert ResolveUrl(url) == Success(ModelRef(c, url));
            assert ResolveId(url) == Success(ModelRef(c, CanonicalUrl(c)));
          case None =>
        }
    }
  }

  // ------------------------------------------------------------------ Model

  /** The value of one field of `to_dict()`. */
  datatype DictValue = Str(s: string) | Int(i: int) | StrList(items: seq<string>)

  const DICT_KEYS: set<string> := {"model_id", "url", "title", "author", "author_url",
    "thumbnail", "views", "downloads", "posted", "published", "updated", "category",
    "licence", "description", "tags"}

  /** The contents of a Model object at one moment. */
  datatype ModelData = ModelData(
    modelId: string, url: string, title: string, author: Option<Author>, thumbnail: string,
    views: int, downloads: int, posted: string, published: string, updated: string,
    category: string, licence: string, description: string, tags: seq<string>,
    htmlContent: string)
  {
    /** `full_url`: the page URL, made absolute if it is not. */
    function FullUrl(): (r: string)
      ensures StartsWith(url, "http") ==> r == url
      ensures url == "" ==> r == ROOT_URL
      ensures r == url || StartsWith(r, "https://")
    {
      if StartsWith(url, "http") then url else JoinRoot(url)
    }

    /** `thumbnail_url`: the thumbnail made absolute, or "" when there is none. */
    function ThumbnailUrl(): (r: string)
      ensures StartsWith(thumbnail, "http") ==> r == thumbnail
      ensures r == "" <==> thumbnail == ""
      ensures r == thumbnail || StartsWith(r, "https://")
    {
      if thumbnail == "" then "" else if StartsWith(thumbnail, "http") then thumbnail else JoinRoot(thumbnail)
    }

    /** `to_dict()` */
    function ToDict(): map<string, DictValue>
    {
      DictWith(FullUrl(), ThumbnailUrl(), if author.Some? then author.value.ProfileUrl() else "")
    }

    /** The dictionary `to_dict()` builds once the three links are made absolute. */
    function DictWith(fullUrl: string, thumbnailUrl: string, profileUrl: string): map<string, DictValue>
    {
      map["model_id" := Str(modelId), "url" := Str(fullUrl), "title" := Str(title),
          "author" := Str(if author.Some? then author.value.name else ""),
          "author_url" := Str(profileUrl),
          "thumbnail" := Str(thumbnailUrl), "views" := Int(views), "downloads" := Int(downloads),
          "posted" := Str(posted), "published" := Str(published), "updated" := Str(updated),
          "category" := Str(category), "licence" := Str(licence),
          "description" := Str(description), "tags" := StrList(tags)]
    }
  }

  /** `to_dict()` always has the same fifteen keys, whichever fields are set. */
  lemma ToDictKeys(m: ModelData)
    ensures m.ToDict().Keys == DICT_KEYS
  {
    DictWithKeys(m, m.FullUrl(), m.ThumbnailUrl(), if m.author.Some? then m.author.value.ProfileUrl() else "");
  }

  lemma DictWithKeys(m: ModelData, fullUrl: string, thumbnailUrl: string, profileUrl: string)
    ensures m.DictWith(fullUrl, thumbnailUrl, profileUrl).Keys == DICT_KEYS
  {
  }

  /** In `to_dict()` the page and thumbnail links are kept or made `https` URLs, the
      thumbnail is empty exactly when the model has none, a missing author shows as empty
      strings, and the counters and tags are kept. */
  lemma ToDictValues(m: ModelData)
    ensures var d := m.ToDict();
      && "url" in d && d["url"].Str?
      && (d["url"].s == m.url || StartsWith(d["url"].s, "https://"))
      && "thumbnail" in d && d["thumbnail"].Str?
      && (d["thumbnail"].s == "" <==> m.thumbnail == "")
      && (d["thumbnail"].s == m.thumbnail || StartsWith(d["thumbnail"].s, "https://"))
      && "author" in d && "author_url" in d
      && (m.author.None? ==> d["author"] == Str("") && d["author_url"] == Str(""))
      && (m.author.Some? ==> d["author"] == Str(m.author.value.name))
      && "views" in d && d["views"] == Int(m.views)
      && "downloads" in d && d["downloads"] == Int(m.downloads)
      && "tags" in d && d["tags"] == StrList(m.tags)
  {
    DictWithFields(m, m.FullUrl(), m.ThumbnailUrl(), if m.author.Some? then m.author.value.ProfileUrl() else "");
  }

  lemma DictWithFields(m: ModelData, fullUrl: string, thumbnailUrl: string, profileUrl: string)
    ensures var d := m.DictWith(fullUrl, thumbnailUrl, profileUrl);
      && "url" in d && "thumbnail" in d && "author" in d && "author_url" in d
      && "views" in d && "downloads" in d && "tags" in d
      && d["url"] == Str(fullUrl) && d["thumbnail"] == Str(thumbnailUrl)
      && d["author"] == Str(if m.author.Some? then m.author.value.name else "")
      && d["author_url"] == Str(profileUrl)
      && d["views"] == Int(m.views) && d["downloads"] == Int(m.downloads)
      && d["tags"] == StrList(m.tags)
  {
  }

  /** A site-relative link such as `/project/<id>/` or `/user/<name>/` becomes that path
      on the site's root, in `full_url`, `thumbnail_url` and `profile_url` alike. */
  lemma RelativeLinksJoined(m: ModelData, a: Author, path: string)
    requires IsPlainPath(path)
    requires m.url == path && m.thumbnail == path && a.url == path
    ensures m.FullUrl() == ROOT_URL + path
    ensures m.ThumbnailUrl() == ROOT_URL + path
    ensures a.ProfileUrl() == ROOT_URL + path
  {
    JoinRootAbsolutePath(path);
    SlashIsNotHttp(path);
  }

  lemma SlashIsNotHttp(s: string)
    requires s != [] && s[0] == '/'
    ensures !StartsWith(s, "http")
  {
    if |s| >= 4 {
      assert s[..4][0] == '/';
    }
  }

  /** A model as `from_id`/`from_url` create it: every other field at its default. */
  function NewModelData(ref: ModelRef): ModelData
  {
    ModelData(ref.modelId, ref.url, "", None, "", 0, 0, "", "", "", "", "", "", [], "")
  }

  /** A model built by `from_id` links to its canonical page as it is. */
  lemma ResolvedFullUrl(input: string)
    requires ResolveId(input).Success?
    ensures NewModelData(ResolveId(input).value).FullUrl() == CanonicalUrl(ResolveId(input).value.modelId)
  {
  }

  const LRM := "\U{200E}"

  function Count(b: bool): nat { if b then 1 else 0 }

  /** A line of a summary: an icon, then the text after it. */
  function IconLine(icon: char, rest: string): (r: string)
    ensures |r| > 0 && r[0] == icon
  {
    [icon] + rest
  }

  /** An optional line of a summary: `icon` followed by `rest`, shown when `shown` holds. */
  datatype FieldLine = FieldLine(shown: bool, icon: char, rest: string)

  /** The optional lines of `format_info`, in order, each with the test that shows it; at
      most five tags are listed. */
  function FieldLines(d: ModelData): seq<FieldLine>
  {
    [ FieldLine(d.author.Some?, '👤', AuthorRest(d)),
      FieldLine(d.category != "", '📁', " 分类: " + d.category),
      FieldLine(d.views != 0, '👀', " 浏览: " + FormatThousands(d.views)),
      FieldLine(d.downloads != 0, '📥', " 下载: " + FormatThousands(d.downloads)),
      FieldLine(d.posted != "", '📅', " 发布: " + d.posted),
      FieldLine(d.updated != "", '🔄', " 更新: " + d.updated),
      FieldLine(d.licence != "", '📜', " 许可: " + d.licence),
      FieldLine(d.tags != [], '🏷', "\U{FE0F} 标签: " + Join(Take(d.tags, 5), ", ")) ]
  }

  function AuthorRest(d: ModelData): string
  {
    " 作者: " + (if d.author.Some? then d.author.value.name else "")
  }

  /** The text of those of the first `n` optional lines that are shown, in order. */
  function Shown(fs: seq<FieldLine>, n: nat): (r: seq<string>)
    requires n <= |fs|
    ensures |r| <= n
  {
    if n == 0 then []
    else
      var f := fs[n - 1];
      Shown(fs, n - 1) + (if f.shown then [IconLine(f.icon, f.rest)] else [])
  }

  /** The lines `format_info` appends to, one by one. */
  method InfoLinesOf(d: ModelData) returns (lines: seq<string>)
    ensures lines == InfoLines(d)
  {
    lines := [IconLine('📦', " " + d.title), IconLine('🔗', " " + d.FullUrl())];
    lines := AppendIf(lines, d.author.Some?, '👤', AuthorRest(d));
    lines := AppendIf(lines, d.category != "", '📁', " 分类: " + d.category);
    lines := AppendIf(lines, d.views != 0, '👀', " 浏览: " + FormatThousands(d.views));
    lines := AppendIf(lines, d.downloads != 0, '📥', " 下载: " + FormatThousands(d.downloads));
    lines := AppendIf(lines, d.posted != "", '📅', " 发布: " + d.posted);
    lines := AppendIf(lines, d.updated != "", '🔄', " 更新: " + d.updated);
    lines := AppendIf(lines, d.licence != "", '📜', " 许可: " + d.licence);
    lines := AppendIf(lines, d.tags != [], '🏷', "\U{FE0F} 标签: " + Join(Take(d.tags, 5), ", "));
  }

  /** `if shown: lines.append(icon + rest)` */
  method AppendIf(lines: seq<string>, shown: bool, icon: char, rest: string) returns (r: seq<string>)
    ensures r == AddIf(lines, FieldLine(shown, icon, rest))
  {
    r := lines;
    if shown {
      r := r + [IconLine(icon, rest)];
    }
  }

  /** `lines` with the optional line `f` appended when it is shown. */
  function AddIf(lines: seq<string>, f: FieldLine): seq<string>
  {
    if f.shown then lines + [IconLine(f.icon, f.rest)] else lines
  }

  /** `head` with each of eight optional lines appended in turn when it is shown. */
  function AddEach(head: seq<string>, fs: seq<FieldLine>): seq<string>
    requires |fs| == 8
  {
    AddIf(AddIf(AddIf(AddIf(AddIf(AddIf(AddIf(AddIf(head, fs[0]), fs[1]), fs[2]), fs[3]), fs[4]), fs[5]), fs[6]), fs[7])
  }

  /** Appending the optional lines one at a time leaves, after the fixed `head`, exactly
      those that are shown, in their order. */
  lemma AddEachShown(head: seq<string>, fs: seq<FieldLine>)
    requires |fs| == 8
    ensures AddEach(head, fs) == head + Shown(fs, 8)
  {
    var l0 := AddIf(head, fs[0]);
    AddIfShown(head, fs, 0, head);
    var l1 := AddIf(l0, fs[1]);
    AddIfShown(head, fs, 1, l0);
    var l2 := AddIf(l1, fs[2]);
    AddIfShown(head, fs, 2, l1);
    var l3 := AddIf(l2, fs[3]);
    AddIfShown(head, fs, 3, l2);
    var l4 := AddIf(l3, fs[4]);
    AddIfShown(head, fs, 4, l3);
    var l5 := AddIf(l4, fs[5]);
    AddIfShown(head, fs, 5, l4);
    var l6 := AddIf(l5, fs[6]);
    AddIfShown(head, fs, 6, l5);
    AddIfShown(head, fs, 7, l6);
  }

  /** Appending the optional line `k` when it is shown extends the lines of the first `k`
      that are shown. */
  lemma AddIfShown(head: seq<string>, fs: seq<FieldLine>, k: nat, lines: seq<string>)
    requires k < |fs| && lines == head + Shown(fs, k)
    ensures AddIf(lines, fs[k]) == head + Shown(fs, k + 1)
  {
  }

  /** The lines of `format_info`: the title and the link, then each optional line in turn
      when it is shown. */
  function InfoLines(d: ModelData): seq<string>
  {
    AddEach([IconLine('📦', " " + d.title), IconLine('🔗', " " + d.FullUrl())], FieldLines(d))
  }

  /** The text of `format_info`: the lines joined by newlines, ending in a left-to-right mark
      so that the host's `strip()` keeps the last line intact. */
  function InfoText(d: ModelData): (r: string)
    ensures |r| > 0 && r[|r| - 1] == LRM[0]
  {
    Join(InfoLines(d), "\n") + LRM
  }

  /** Some line of `lines` starts with `c`. */
  predicate HasLineWith(lines: seq<string>, c: char) {
    exists k :: 0 <= k < |lines| && |lines[k]| > 0 && lines[k][0] == c
  }

  lemma HasLineWithAppend(a: seq<string>, b: seq<string>, c: char)
    ensures HasLineWith(a + b, c) <==> HasLineWith(a, c) || HasLineWith(b, c)
  {
    if HasLineWith(a + b, c) {
      var k :| 0 <= k < |a + b| && |(a + b)[k]| > 0 && (a + b)[k][0] == c;
      if k < |a| {
        assert a[k] == (a + b)[k];
        assert HasLineWith(a, c);
      } else {
        assert b[k - |a|] == (a + b)[k];
        assert HasLineWith(b, c);
      }
    }
    if HasLineWith(a, c) {
      var k :| 0 <= k < |a| && |a[k]| > 0 && a[k][0] == c;
      assert (a + b)[k] == a[k];
    }
    if HasLineWith(b, c) {
      var k :| 0 <= k < |b| && |b[k]| > 0 && b[k][0] == c;
      assert (a + b)[|a| + k] == b[k];
    }
  }

  /** A shown line starts with `c` exactly when one of the first `n` optional lines whose
      test holds has the icon `c`. */
  lemma {:induction false} ShownIcon(fs: seq<FieldLine>, n: nat, c: char)
    requires n <= |fs|
    ensures HasLineWith(Shown(fs, n), c) <==> exists k :: 0 <= k < n && fs[k].shown && fs[k].icon == c
  {
    if n > 0 {
      var f := fs[n - 1];
      var tail := if f.shown then [IconLine(f.icon, f.rest)] else [];
      ShownIcon(fs, n - 1, c);
      HasLineWithAppend(Shown(fs, n - 1), tail, c);
      if f.shown {
        assert HasLineWith(tail, c) <==> f.icon == c by {
          assert tail[0][0] == f.icon;
        }
      }
    }
  }

  /** Every line of a summary starts with an icon: each optional line is shown exactly when
      its field is set, and the title and link lines always are. */
  lemma InfoIconsShown(d: ModelData)
    ensures var lines := InfoLines(d);
      && HasLineWith(lines, '📦') && HasLineWith(lines, '🔗')
      && (HasLineWith(lines, '👤') <==> d.author.Some?)
      && (HasLineWith(lines, '📁') <==> d.category != "")
      && (HasLineWith(lines, '👀') <==> d.views != 0)
      && (HasLineWith(lines, '📥') <==> d.downloads != 0)
      && (HasLineWith(lines, '📅') <==> d.posted != "")
      && (HasLineWith(lines, '🔄') <==> d.updated != "")
      && (HasLineWith(lines, '📜') <==> d.licence != "")
      && (HasLineWith(lines, '🏷') <==> d.tags != [])
  {
    var head := [IconLine('📦', " " + d.title), IconLine('🔗', " " + d.FullUrl())];
    var fs := FieldLines(d);
    AddEachShown(head, fs);
    assert HasLineWith(head, '📦') && HasLineWith(head, '🔗') by {
      assert head[0][0] == '📦' && head[1][0] == '🔗';
    }
    FieldIconShown(d, 0);
    FieldIconShown(d, 1);
    FieldIconShown(d, 2);
    FieldIconShown(d, 3);
    FieldIconShown(d, 4);
    FieldIconShown(d, 5);
    FieldIconShown(d, 6);
    FieldIconShown(d, 7);
    HasLineWithAppend(head, Shown(fs, 8), '📦');
    HasLineWithAppend(head, Shown(fs, 8), '🔗');
  }

  /** The optional line `i` of a summary, whose icon no other line has, is shown exactly
      when its test holds. */
  lemma FieldIconShown(d: ModelData, i: nat)
    requires i < 8
    ensures HasLineWith(InfoLines(d), FieldLines(d)[i].icon) <==> FieldLines(d)[i].shown
  {
    var head := [IconLine('📦', " " + d.title), IconLine('🔗', " " + d.FullUrl())];
    AddEachShown(head, FieldLines(d));
    FieldIconsIndexed(d);
    DistinctIconShown(" " + d.title, " " + d.FullUrl(), FieldLines(d), i);
  }

  /** After the title and link lines, and among optional lines whose icons stand at their
      own places, the icon of line `i` appears exactly when line `i` is shown. */
  lemma DistinctIconShown(title: string, link: string, fs: seq<FieldLine>, i: nat)
    requires i < |fs| == 8
    requires forall k | 0 <= k < 8 :: FieldIconIndex(fs[k].icon) == k
    ensures HasLineWith([IconLine('📦', title), IconLine('🔗', link)] + Shown(fs, 8), fs[i].icon) <==> fs[i].shown
  {
    var head := [IconLine('📦', title), IconLine('🔗', link)];
    var c := fs[i].icon;
    assert !HasLineWith(head, c) by {
      assert FieldIconIndex(head[0][0]) == -1 && FieldIconIndex(head[1][0]) == -1;
    }
    ShownIcon(fs, 8, c);
    HasLineWithAppend(head, Shown(fs, 8), c);
    if exists k :: 0 <= k < 8 && fs[k].shown && fs[k].icon == c {
      var k :| 0 <= k < 8 && fs[k].shown && fs[k].icon == c;
      assert FieldIconIndex(fs[k].icon) == k;
    }
  }

  /** Where an icon stands among the optional lines; -1 for any other character. */
  function FieldIconIndex(c: char): int
  {
    match c
    case '👤' => 0
    case '📁' => 1
    case '👀' => 2
    case '📥' => 3
    case '📅' => 4
    case '🔄' => 5
    case '📜' => 6
    case '🏷' => 7
    case _ => -1
  }

  /** The optional lines carry eight different icons. */
  lemma FieldIconsIndexed(d: ModelData)
    ensures |FieldLines(d)| == 8
    ensures forall k | 0 <= k < 8 :: FieldIconIndex(FieldLines(d)[k].icon) == k
  {
  }

  /** The test of each optional line. */
  lemma FieldTests(d: ModelData)
    ensures var fs := FieldLines(d);
      && |fs| == 8
      && fs[0].shown == d.author.Some? && fs[1].shown == (d.category != "")
      && fs[2].shown == (d.views != 0) && fs[3].shown == (d.downloads != 0)
      && fs[4].shown == (d.posted != "") && fs[5].shown == (d.updated != "")
      && fs[6].shown == (d.licence != "") && fs[7].shown == (d.tags != [])
  {
  }

  /** The summary opens with the title and link lines, and has one more line for each
      field that is set. */
  lemma InfoLinesShape(d: ModelData)
    ensures var lines := InfoLines(d);
      && lines[..2] == [IconLine('📦', " " + d.title), IconLine('🔗', " " + d.FullUrl())]
      && |lines| == 2 + Count(d.author.Some?) + Count(d.category != "") + Count(d.views != 0)
                      + Count(d.downloads != 0) + Count(d.posted != "") + Count(d.updated != "")
                      + Count(d.licence != "") + Count(d.tags != [])
  {
    AddEachShown([IconLine('📦', " " + d.title), IconLine('🔗', " " + d.FullUrl())], FieldLines(d));
    FieldTests(d);
    ShownCount(FieldLines(d));
  }

  /** Eight optional lines show as many lines as there are tests that hold. */
  lemma ShownCount(fs: seq<FieldLine>)
    requires |fs| == 8
    ensures |Shown(fs, 8)| ==
      Count(fs[0].shown) + Count(fs[1].shown) + Count(fs[2].shown) + Count(fs[3].shown)
      + Count(fs[4].shown) + Count(fs[5].shown) + Count(fs[6].shown) + Count(fs[7].shown)
  {
    assert |Shown(fs, 1)| == Count(fs[0].shown);
    assert |Shown(fs, 2)| == |Shown(fs, 1)| + Count(fs[1].shown);
    assert |Shown(fs, 3)| == |Shown(fs, 2)| + Count(fs[2].shown);
    assert |Shown(fs, 4)| == |Shown(fs, 3)| + Count(fs[3].shown);
    assert |Shown(fs, 5)| == |Shown(fs, 4)| + Count(fs[4].shown);
    assert |Shown(fs, 6)| == |Shown(fs, 5)| + Count(fs[5].shown);
    assert |Shown(fs, 7)| == |Shown(fs, 6)| + Count(fs[6].shown);
  }

  /** A Model object, whose fields the client fills in place. */
  class Model {
    var modelId: string
    var url: string
    var title: string
    var author: Option<Author>
    var thumbnail: string
    var views: int
    var downloads: int
    var posted: string
    var published: string
    var updated: string
    var category: string
    var licence: string
    var description: string
    var tags: seq<string>
    var htmlContent: string

    function Data(): ModelData
      reads this
    {
      ModelData(modelId, url, title, author, thumbnail, views, downloads, posted, published,
                updated, category, licence, description, tags, htmlContent)
    }

    constructor (ref: ModelRef)
      ensures Data() == NewModelData(ref)
    {
      modelId, url := ref.modelId, ref.url;
      title, author, thumbnail := "", None, "";
      views, downloads := 0, 0;
      posted, published, updated, category, licence, description := "", "", "", "", "", "";
      tags, htmlContent := [], "";
    }

    /** The object that a listing entry with contents `d` stands for. */
    constructor Of(d: ModelData)
      ensures Data() == d
    {
      modelId, url, title, author, thumbnail := d.modelId, d.url, d.title, d.author, d.thumbnail;
      views, downloads := d.views, d.downloads;
      posted, published, updated, category := d.posted, d.published, d.updated, d.category;
      licence, description, tags, htmlContent := d.licence, d.description, d.tags, d.htmlContent;
    }

    /** Sets the three fields a search-result card fills in, leaving the rest as they were. */
    method SetCardFields(title': string, thumbnail': string, author': Option<Author>)
      modifies this
      ensures Data() == old(Data()).(title := title', thumbnail := thumbnail', author := author')
    {
      title, thumbnail, author := title', thumbnail', author';
    }

    /** `Model.from_id(input)` */
    static method FromId(input: string) returns (r: Result<Model, Error>)
      ensures ResolveId(input).Failure? ==> r == Failure(ResolveId(input).error)
      ensures ResolveId(input).Success? ==>
        r.Success? && fresh(r.value) && r.value.Data() == NewModelData(ResolveId(input).value)
    {
      var ref := ResolveId(input);
      if ref.Failure? {
        return Failure(ref.error);
      }
      var m := new Model(ref.value);
      return Success(m);
    }

    /** `Model.from_url(url)` */
    static method FromUrl(url: string) returns (r: Result<Model, Error>)
      ensures ResolveUrl(url).Failure? ==> r == Failure(ResolveUrl(url).error)
      ensures ResolveUrl(url).Success? ==>
        r.Success? && fresh(r.value) && r.value.Data() == NewModelData(ResolveUrl(url).value)
    {
      var ref := ResolveUrl(url);
      if ref.Failure? {
        return Failure(ref.error);
      }
      var m := new Model(ref.value);
      return Success(m);
    }

    /** `format_info()`: the title and link lines, then one line per field that is set;
        the text is the same whichever thumbnail flag is passed. */
    method FormatInfo(censoredThumbnail: bool) returns (text: string)
      ensures text == InfoText(Data())
    {
      var lines := InfoLinesOf(Data());
      text := Join(lines, "\n") + LRM;
    }
  }

  // ------------------------------------------------------------------ SearchResult

  /** The contents of a SearchResult object at one moment. */
  datatype Listing = Listing(models: seq<ModelData>, totalPages: int, currentPage: int, query: string)
  {
    /** `total_count`: the number of models on this page (not on the whole site). */
    function TotalCount(): nat
    {
      |models|
    }

    /** `has_next_page` */
    predicate HasNextPage()
    {
      currentPage < totalPages
    }

    /** `has_prev_page` */
    predicate HasPrevPage()
    {
      currentPage > 1
    }
  }

  const NO_RESULTS := "未找到相关模型" + LRM

  /** One line of `format_list`, before it is rendered as text. */
  datatype ListLine =
    | Header(currentPage: int, totalPages: int)
    | Title(n: int, title: string)
    | IdLine(modelId: string, authorName: string)
    | More(extra: int)

  /** The text of one line of `format_list`. */
  function RenderLine(x: ListLine): (r: string)
    ensures |r| > 0
  {
    match x
    case Header(c, t) => "🔍 搜索结果 (第 " + IntToString(c) + "/" + IntToString(t) + " 页):\n"
    case Title(n, title) => IntToString(n) + ". " + title
    case IdLine(id, name) => "   ID: " + id + " | 👤 " + name
    case More(k) => "\n... 还有 " + IntToString(k) + " 个结果"
  }

  function RenderAll(xs: seq<ListLine>): (r: seq<string>)
    ensures |r| == |xs| && forall i :: 0 <= i < |xs| ==> r[i] == RenderLine(xs[i])
  {
    seq(|xs|, i requires 0 <= i < |xs| => RenderLine(xs[i]))
  }

  /** The name shown for a model's author. */
  function AuthorName(m: ModelData): string
  {
    if m.author.Some? then m.author.value.name else "未知"
  }

  /** The two lines listing the `n`-th model (counting from 1). */
  function EntryLines(n: int, m: ModelData): seq<ListLine>
  {
    [Title(n, m.title), IdLine(m.modelId, AuthorName(m))]
  }

  /** The entry lines of `ms`, numbered from 1. */
  function Entries(ms: seq<ModelData>): (r: seq<ListLine>)
    ensures |r| == 2 * |ms|
  {
    if ms == [] then [] else Entries(ms[..|ms| - 1]) + EntryLines(|ms|, ms[|ms| - 1])
  }

  /** The lines of `format_list(maxItems)` for a non-empty page. */
  function ListLines(l: Listing, maxItems: int): seq<ListLine>
  {
    [Header(l.currentPage, l.totalPages)] + Entries(PyPrefix(l.models, maxItems))
    + (if |l.models| > maxItems then [More(|l.models| - maxItems)] else [])
  }

  /** The text of `format_list(maxItems)`. */
  function ListText(l: Listing, maxItems: int): string
  {
    if l.models == [] then NO_RESULTS else Join(RenderAll(ListLines(l, maxItems)), "\n") + LRM
  }

  /** Every text of `format_list` ends in the left-to-right mark; an empty page gives the
      "nothing found" notice. */
  lemma ListTextEnds(l: Listing, maxItems: int)
    ensures var t := ListText(l, maxItems); |t| > 0 && t[|t| - 1] == LRM[0]
    ensures l.models == [] <==> ListText(l, maxItems) == NO_RESULTS
  {
    if l.models != [] {
      var t := ListText(l, maxItems);
      var lines := RenderAll(ListLines(l, maxItems));
      assert |lines| > 0 && |lines[0]| > 0;
      assert t != NO_RESULTS by {
        assert |NO_RESULTS| == 8;
      }
    }
  }

  /** Entry `j` of a list (counting from 0) is numbered `j + 1`. */
  lemma {:induction false} EntriesAt(ms: seq<ModelData>, j: nat)
    requires j < |ms|
    ensures Entries(ms)[2 * j] == Title(j + 1, ms[j].title)
    ensures Entries(ms)[2 * j + 1] == IdLine(ms[j].modelId, AuthorName(ms[j]))
  {
    if j < |ms| - 1 {
      var init := ms[..|ms| - 1];
      EntriesAt(init, j);
      assert init[j] == ms[j];
    }
  }

  /** `format_list` shows `min(maxItems, |models|)` numbered entries (for a non-negative
      `maxItems`), each as a title line and an id line, after the header; it adds the
      "还有 k 个结果" line, with k = |models| - maxItems, last and exactly when there are
      more models than that. */
  lemma ListLinesShape(l: Listing, maxItems: int)
    ensures var lines := ListLines(l, maxItems);
      var shown := PyPrefix(l.models, maxItems);
      && (maxItems >= 0 ==> |shown| == if maxItems <= |l.models| then maxItems else |l.models|)
      && |lines| == 1 + 2 * |shown| + Count(|l.models| > maxItems)
      && lines[0] == Header(l.currentPage, l.totalPages)
      && (forall j :: 0 <= j < |shown| ==>
            lines[1 + 2 * j] == Title(j + 1, l.models[j].title)
            && lines[2 + 2 * j] == IdLine(l.models[j].modelId, AuthorName(l.models[j])))
      && ((exists i :: 0 <= i < |lines| && lines[i].More?) <==> |l.models| > maxItems)
      && (|l.models| > maxItems ==> lines[|lines| - 1] == More(|l.models| - maxItems))
  {
    var lines := ListLines(l, maxItems);
    var shown := PyPrefix(l.models, maxItems);
    var entries := Entries(shown);
    forall j | 0 <= j < |shown|
      ensures lines[1 + 2 * j] == Title(j + 1, l.models[j].title)
      ensures lines[2 + 2 * j] == IdLine(l.models[j].modelId, AuthorName(l.models[j]))
    {
      EntriesAt(shown, j);
      assert lines[1 + 2 * j] == entries[2 * j];
      assert lines[2 + 2 * j] == entries[2 * j + 1];
      assert shown[j] == l.models[j];
    }
    if |l.models| > maxItems {
      assert lines[|lines| - 1].More?;
    } else {
      forall i | 0 <= i < |lines| ensures !lines[i].More? {
        if i > 0 {
          var j := (i - 1) / 2;
          if i == 1 + 2 * j {
            assert lines[1 + 2 * j] == Title(j + 1, l.models[j].title);
          } else {
            assert i == 2 + 2 * j;
            assert lines[2 + 2 * j] == IdLine(l.models[j].modelId, AuthorName(l.models[j]));
          }
        }
      }
    }
  }

  /** The rendered lines of a page: the header, the entries, then the "more" line if any. */
  lemma RenderListLines(l: Listing, maxItems: int)
    requires l.models != []
    ensures ListText(l, maxItems) == Join(RenderAll(ListLines(l, maxItems)), "\n") + LRM
    ensures RenderAll(ListLines(l, maxItems)) ==
      [RenderLine(Header(l.currentPage, l.totalPages))] + RenderAll(Entries(PyPrefix(l.models, maxItems)))
      + (if |l.models| > maxItems then [RenderLine(More(|l.models| - maxItems))] else [])
  {
    var h := [Header(l.currentPage, l.totalPages)];
    var e := Entries(PyPrefix(l.models, maxItems));
    RenderAllAppend(h, e);
    assert RenderAll(h) == [RenderLine(h[0])];
    if |l.models| > maxItems {
      var m := [More(|l.models| - maxItems)];
      assert ListLines(l, maxItems) == h + e + m;
      RenderAllAppend(h + e, m);
      assert RenderAll(m) == [RenderLine(m[0])];
    } else {
      assert ListLines(l, maxItems) == h + e;
    }
  }

  /** Rendering one more entry appends its title and id lines. */
  lemma RenderEntryStep(ms: seq<ModelData>, i: nat)
    requires i < |ms|
    ensures RenderAll(Entries(ms[..i + 1])) ==
      RenderAll(Entries(ms[..i]))
      + [RenderLine(Title(i + 1, ms[i].title)), RenderLine(IdLine(ms[i].modelId, AuthorName(ms[i])))]
  {
    assert ms[..i + 1][..i] == ms[..i];
    RenderAllAppend(Entries(ms[..i]), EntryLines(i + 1, ms[i]));
  }

  /** Rendering a page line by line. */
  lemma RenderAllAppend(a: seq<ListLine>, b: seq<ListLine>)
    ensures RenderAll(a + b) == RenderAll(a) + RenderAll(b)
  {
  }

  /** A SearchResult object, which the client fills and stamps in place.  It holds the
      contents of the models it lists: the client never changes a model after adding it. */
  class SearchResult {
    var models: seq<ModelData>
    var totalPages: int
    var currentPage: int
    var query: string

    function Snapshot(): Listing
      reads this
    {
      Listing(models, totalPages, currentPage, query)
    }

    constructor ()
      ensures Snapshot() == Listing([], 1, 1, "")
    {
      models, totalPages, currentPage, query := [], 1, 1, "";
    }

    /** `format_list(maxItems)` */
    method FormatList(maxItems: int) returns (text: string)
      ensures text == ListText(Snapshot(), maxItems)
    {
      if models == [] {
        return NO_RESULTS;
      }
      var entries := EntryTexts(PyPrefix(models, maxItems));
      var lines := [RenderLine(Header(currentPage, totalPages))] + entries;
      if |models| > maxItems {
        lines := lines + [RenderLine(More(|models| - maxItems))];
      }
      ghost var l := Snapshot();
      RenderListLines(l, maxItems);
      assert lines == RenderAll(ListLines(l, maxItems));
      text := Join(lines, "\n") + LRM;
    }

    /** The loop of `format_list`: two lines per shown model, numbered from 1. */
    static method EntryTexts(shown: seq<ModelData>) returns (lines: seq<string>)
      ensures lines == RenderAll(Entries(shown))
    {
      lines := [];
      var i := 0;
      while i < |shown|
        invariant 0 <= i <= |shown|
        invariant lines == RenderAll(Entries(shown[..i]))
      {
        RenderEntryStep(shown, i);
        lines := lines + [RenderLine(Title(i + 1, shown[i].title)),
                          RenderLine(IdLine(shown[i].modelId, AuthorName(shown[i])))];
        i := i + 1;
      }
      assert shown[..i] == shown;
    }
  }
}
