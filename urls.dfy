/** `urllib.parse.urljoin(ROOT_URL, ref)`, the only join the scraper makes: the base is the
    site root, which has the scheme `https`, the host `smutba.se` and an empty path, query
    and fragment. The reference is split as `urlparse` splits it (CPython 3.12) and resolved
    as section 5.2 of RFC 3986 says, with the leniencies of `urljoin`. */
module Urls {
  import opened Wrappers
  import opened Text
  import opened Consts

  const ROOT_HOST := "smutba.se"

  lemma RootUrlParts()
    ensures ROOT_URL == "https://" + ROOT_HOST
  {
  }

  // ------------------------------------------------------------------ splitting

  /** The characters `urlsplit` strips from the front of a URL: C0 controls and space. */
  predicate IsControlOrSpace(c: char) {
    c <= ' '
  }

  function LStripControls(s: string): string
  {
    if s != [] && IsControlOrSpace(s[0]) then LStripControls(s[1..]) else s
  }

  /** What `urlsplit` looks at: the reference without leading controls and spaces, and
      without any tab, carriage return or line feed. */
  function Clean(s: string): string
  {
    DropBreaks(LStripControls(s))
  }

  predicate IsBreak(c: char) {
    c == '\t' || c == '\r' || c == '\n'
  }

  /** `s` without its tabs, carriage returns and line feeds. */
  function DropBreaks(s: string): string
  {
    if s == [] then []
    else DropBreaks(s[..|s| - 1]) + (if IsBreak(s[|s| - 1]) then [] else [s[|s| - 1]])
  }

  /** `s.find(c, from)`, with `|s|` for "not found". */
  function IndexOf(s: string, c: char, from: nat): (r: nat)
    requires from <= |s|
    ensures from <= r <= |s|
    ensures r < |s| ==> s[r] == c
    decreases |s| - from
  {
    if from == |s| || s[from] == c then from else IndexOf(s, c, from + 1)
  }

  /** `s.rfind(c)` for a character that occurs in `s`. */
  function LastIndexOf(s: string, c: char): (r: nat)
    requires c in s
    ensures r < |s| && s[r] == c
  {
    if s[|s| - 1] == c then |s| - 1 else LastIndexOf(s[..|s| - 1], c)
  }

  predicate IsNetlocEnd(c: char) {
    c == '/' || c == '?' || c == '#'
  }

  /** The end of the network location that starts at `from`: the first `/`, `?` or `#`. */
  function NetlocEnd(s: string, from: nat): (r: nat)
    requires from <= |s|
    ensures from <= r <= |s|
    decreases |s| - from
  {
    if from == |s| || IsNetlocEnd(s[from]) then from else NetlocEnd(s, from + 1)
  }

  predicate IsAsciiLetter(c: char) {
    'a' <= c <= 'z' || 'A' <= c <= 'Z'
  }

  predicate IsSchemeChar(c: char) {
    IsAsciiLetter(c) || '0' <= c <= '9' || c == '+' || c == '-' || c == '.'
  }

  /** The colon that ends a scheme: the first colon, when it is not the first character,
      the reference starts with an ASCII letter and only scheme characters precede it. */
  function SchemeEnd(u: string): (r: Option<nat>)
    ensures r.Some? ==> 0 < r.value < |u|
    ensures u == [] || !IsAsciiLetter(u[0]) ==> r.None?
  {
    var i := IndexOf(u, ':', 0);
    if 0 < i < |u| && IsAsciiLetter(u[0]) && forall k :: 0 <= k < i ==> IsSchemeChar(u[k]) then Some(i)
    else None
  }

  /** The six components of `urlparse`. */
  datatype UrlParts = UrlParts(scheme: string, netloc: string, path: string, params: string,
                               query: string, fragment: string)

  /** `_splitparams(path)` for a path holding a `;`: the parameters follow the first `;`
      after the last `/`, or the first `;` when there is no `/`. */
  function SplitParams(path: string): (r: (string, string))
    requires ';' in path
    ensures |r.0| <= |path|
  {
    var i := if '/' in path then IndexOf(path, ';', LastIndexOf(path, '/')) else IndexOf(path, ';', 0);
    if i == |path| then (path, "") else (path[..i], path[i + 1..])
  }

  /** The scheme of a cleaned reference, lower-cased, and what follows its colon; `https`
      and the whole reference when it has none. */
  function SplitScheme(u: string): (r: (string, string))
    ensures SchemeEnd(u).None? ==> r == ("https", u)
  {
    match SchemeEnd(u)
    case None => ("https", u)
    case Some(i) => (LowerAscii(u[..i]), u[i + 1..])
  }

  /** The network location after a leading `//`, up to the first `/`, `?` or `#`, and what
      follows it. */
  function SplitNetloc(rest: string): (r: (string, string))
    ensures !StartsWith(rest, "//") ==> r == ("", rest)
  {
    if StartsWith(rest, "//") then
      var n := NetlocEnd(rest, 2);
      (rest[2..n], rest[n..])
    else ("", rest)
  }

  /** `s.split(c, 1)` padded to two parts: what precedes the first `c` and what follows it. */
  function SplitAt(s: string, c: char): (r: (string, string))
    ensures c !in s ==> r == (s, "")
  {
    var i := IndexOf(s, c, 0);
    if i < |s| then (s[..i], s[i + 1..])
    else assert s[..i] == s; (s, "")
  }

  /** `urlparse(ref, "https")` */
  function Parse(ref: string): UrlParts
  {
    Components(Clean(ref))
  }

  /** The components `urlparse` finds in a cleaned reference `u`. */
  function Components(u: string): UrlParts
  {
    var scheme := SplitScheme(u);
    var netloc := SplitNetloc(scheme.1);
    var fragment := SplitAt(netloc.1, '#');
    var query := SplitAt(fragment.0, '?');
    var params := if ';' in query.0 then SplitParams(query.0) else (query.0, "");
    UrlParts(scheme.0, netloc.0, params.0, params.1, query.1, fragment.1)
  }

  // ------------------------------------------------------------------ resolution

  /** `s.split(c)` */
  function Split(s: string, c: char): (r: seq<string>)
    ensures |r| >= 1
  {
    if c !in s then [s]
    else
      var i := LastIndexOf(s, c);
      Split(s[..i], c) + [s[i + 1..]]
  }

  /** The segments that are not empty, in order. */
  function NonEmpty(segments: seq<string>): seq<string>
  {
    if segments == [] then []
    else NonEmpty(segments[..|segments| - 1]) + (if segments[|segments| - 1] == "" then [] else [segments[|segments| - 1]])
  }

  /** The dot-segment loop of `urljoin`: `..` drops the last segment kept (if any), `.` is
      skipped, any other segment is kept. */
  function RemoveDots(segments: seq<string>): seq<string>
  {
    if segments == [] then []
    else
      var kept := RemoveDots(segments[..|segments| - 1]);
      var s := segments[|segments| - 1];
      if s == ".." then (if kept == [] then [] else kept[..|kept| - 1])
      else if s == "." then kept
      else kept + [s]
  }

  /** The segments `urljoin` resolves: those of an absolute path as they are; those of a
      relative one after the root's empty segment, with the empty ones dropped except the
      last. */
  function Segments(path: string): (r: seq<string>)
    ensures |r| >= 1
  {
    var parts := Split(path, '/');
    if path != [] && path[0] == '/' then parts
    else [""] + NonEmpty(parts[..|parts| - 1]) + [parts[|parts| - 1]]
  }

  /** The path `urljoin` gives a reference path against the root's empty path. */
  function ResolvePath(path: string): string
  {
    var segments := Segments(path);
    var last := segments[|segments| - 1];
    var resolved := RemoveDots(segments) + (if last == "." || last == ".." then [""] else []);
    var joined := Join(resolved, "/");
    if joined == "" then "/" else joined
  }

  /** `urlunparse(("https", netloc, path, params, query, fragment))` for a non-empty
      network location. */
  function Unparse(netloc: string, path: string, params: string, query: string, fragment: string): (r: string)
    ensures StartsWith(r, "https://")
  {
    var p := if params != "" then path + ";" + params else path;
    var rooted := if p != "" && p[0] != '/' then "/" + p else p;
    "https://" + netloc + rooted + (if query != "" then "?" + query else "")
      + (if fragment != "" then "#" + fragment else "")
  }

  /** `urljoin(ROOT_URL, ref)`: the root for an empty reference; the reference itself, as
      given, when it names another scheme; otherwise an `https` URL on the reference's
      host, or on the site's host with the reference's path resolved against `/`. */
  function JoinRoot(ref: string): (r: string)
    ensures ref == "" ==> r == ROOT_URL
    ensures ref != "" && Parse(ref).scheme != "https" ==> r == ref
    ensures ref == "" || Parse(ref).scheme == "https" ==> StartsWith(r, "https://")
  {
    if ref == "" then ROOT_URL
    else
      var p := Parse(ref);
      if p.scheme != "https" then ref
      else if p.netloc != "" then Unparse(p.netloc, p.path, p.params, p.query, p.fragment)
      else if p.path == "" && p.params == "" then Unparse(ROOT_HOST, "", "", p.query, p.fragment)
      else Unparse(ROOT_HOST, ResolvePath(p.path), p.params, p.query, p.fragment)
  }

  // ------------------------------------------------------------------ properties

  /** A reference that starts with a letter and a colon-free run of letters before its
      first colon names its own scheme; unless that scheme is `https` it is left alone. */
  lemma JoinRootKeepsOtherSchemes(ref: string, i: nat)
    requires 0 < i < |ref| && ref[i] == ':' && !IsControlOrSpace(ref[0])
    requires forall k :: 0 <= k < i ==> IsAsciiLetter(ref[k])
    requires '\t' !in ref && '\r' !in ref && '\n' !in ref
    requires LowerAscii(ref[..i]) != "https"
    ensures JoinRoot(ref) == ref
  {
    CleanPlain(ref);
    assert IndexOf(ref, ':', 0) == i by {
      IndexOfAt(ref, ':', 0, i);
    }
  }

  /** `s.find(c, from)` is the first index at or after `from` that holds `c`. */
  lemma {:induction false} IndexOfAt(s: string, c: char, from: nat, k: nat)
    requires from <= k <= |s|
    requires forall j :: from <= j < k ==> s[j] != c
    requires k == |s| || s[k] == c
    ensures IndexOf(s, c, from) == k
    decreases k - from
  {
    if from < k {
      IndexOfAt(s, c, from + 1, k);
    }
  }

  /** `"/".join(s.split("/")) == s` */
  lemma {:induction false} JoinSplit(s: string)
    ensures Join(Split(s, '/'), "/") == s
    decreases |s|
  {
    if '/' in s {
      var i := LastIndexOf(s, '/');
      var parts := Split(s, '/');
      JoinSplit(s[..i]);
      assert parts[..|parts| - 1] == Split(s[..i], '/');
      assert s == s[..i] + "/" + s[i + 1..];
    }
  }

  /** Without `.` and `..` segments the dot-segment loop keeps every segment. */
  lemma {:induction false} RemoveDotsKeeps(segments: seq<string>)
    requires forall k :: 0 <= k < |segments| ==> segments[k] != "." && segments[k] != ".."
    ensures RemoveDots(segments) == segments
    decreases |segments|
  {
    if segments != [] {
      RemoveDotsKeeps(segments[..|segments| - 1]);
      assert segments[..|segments| - 1] + [segments[|segments| - 1]] == segments;
    }
  }

  /** A plain absolute path: one slash in front, no query, fragment, parameters, line
      breaks or dot segments. The links to model pages and profiles are of this kind. */
  predicate IsPlainPath(path: string) {
    && |path| >= 1 && path[0] == '/' && (|path| == 1 || path[1] != '/')
    && (forall k :: 0 <= k < |path| ==> path[k] !in "?#;\t\r\n")
    && NoDotSegments(path)
  }

  /** No segment of `s.split("/")` is `.` or `..`. */
  predicate NoDotSegments(s: string) {
    if '/' !in s then s != "." && s != ".."
    else
      var i := LastIndexOf(s, '/');
      s[i + 1..] != "." && s[i + 1..] != ".." && NoDotSegments(s[..i])
  }

  lemma {:induction false} NoDotSegmentsSplit(s: string)
    requires NoDotSegments(s)
    ensures forall k :: 0 <= k < |Split(s, '/')| ==> Split(s, '/')[k] != "." && Split(s, '/')[k] != ".."
    decreases |s|
  {
    if '/' in s {
      var i := LastIndexOf(s, '/');
      NoDotSegmentsSplit(s[..i]);
    }
  }

  /** A plain absolute path is appended to the root as it is. */
  lemma JoinRootAbsolutePath(path: string)
    requires IsPlainPath(path)
    ensures JoinRoot(path) == ROOT_URL + path
  {
    PlainPathChars(path);
    ParseBarePath(path);
    ResolvePlainPath(path);
    assert JoinRoot(path) == Unparse(ROOT_HOST, path, "", "", "");
    UnparsePath(ROOT_HOST, path);
    RootUrlParts();
  }

  /** A reference that starts with neither a letter nor `//` and holds no `?`, `#` or `;`
      is all path: no scheme, host, parameters, query or fragment. */
  lemma ParseBarePath(path: string)
    requires path != [] && !IsControlOrSpace(path[0]) && !IsAsciiLetter(path[0]) && !StartsWith(path, "//")
    requires '\t' !in path && '\r' !in path && '\n' !in path && '#' !in path && '?' !in path && ';' !in path
    ensures Parse(path) == UrlParts("https", "", path, "", "", "")
  {
    BarePathComponents(path);
    CleanPlain(path);
  }

  lemma BarePathComponents(path: string)
    requires path != [] && !IsAsciiLetter(path[0]) && !StartsWith(path, "//")
    requires '#' !in path && '?' !in path && ';' !in path
    ensures Components(path) == UrlParts("https", "", path, "", "", "")
  {
  }

  lemma PlainPathChars(path: string)
    requires forall k :: 0 <= k < |path| ==> path[k] !in "?#;\t\r\n"
    ensures '\t' !in path && '\r' !in path && '\n' !in path && '#' !in path && '?' !in path && ';' !in path
  {
    forall k | 0 <= k < |path|
      ensures path[k] != '\t' && path[k] != '\r' && path[k] != '\n'
      ensures path[k] != '#' && path[k] != '?' && path[k] != ';'
    {
      assert path[k] !in "?#;\t\r\n";
    }
  }

  /** A plain absolute path has nothing to resolve. */
  lemma ResolvePlainPath(path: string)
    requires IsPlainPath(path)
    ensures ResolvePath(path) == path
  {
    var parts := Split(path, '/');
    NoDotSegmentsSplit(path);
    assert Segments(path) == parts;
    var last := parts[|parts| - 1];
    assert last != "." && last != "..";
    RemoveDotsKeeps(parts);
    assert RemoveDots(parts) + [] == parts;
    JoinSplit(path);
  }

  /** A path that starts with a slash follows the host as it is. */
  lemma UnparsePath(netloc: string, path: string)
    requires path == [] || path[0] == '/'
    ensures Unparse(netloc, path, "", "", "") == "https://" + netloc + path
  {
  }

  /** A reference of only a query keeps the root's empty path: `"?q=1"` gives
      `"https://smutba.se?q=1"`, with no slash before the query. */
  lemma JoinRootQueryOnly(q: string)
    requires q != [] && '#' !in q
    requires '\t' !in q && '\r' !in q && '\n' !in q
    ensures JoinRoot("?" + q) == ROOT_URL + "?" + q
  {
    ParseQueryOnly(q);
    assert JoinRoot("?" + q) == Unparse(ROOT_HOST, "", "", q, "");
    UnparseQuery(ROOT_HOST, q);
    RootUrlParts();
  }

  /** An empty path with a query: the query follows the host directly. */
  lemma UnparseQuery(netloc: string, q: string)
    requires q != []
    ensures Unparse(netloc, "", "", q, "") == "https://" + netloc + "?" + q
  {
  }

  lemma ParseQueryOnly(q: string)
    requires '#' !in q
    requires '\t' !in q && '\r' !in q && '\n' !in q
    ensures Parse("?" + q) == UrlParts("https", "", "", "", q, "")
  {
    var ref := "?" + q;
    QueryComponents(q);
    assert '\t' !in ref && '\r' !in ref && '\n' !in ref;
    CleanPlain(ref);
  }

  lemma QueryComponents(q: string)
    requires '#' !in q
    ensures Components("?" + q) == UrlParts("https", "", "", "", q, "")
  {
    var ref := "?" + q;
    assert ref[0] == '?';
    assert SplitScheme(ref) == ("https", ref);
    assert SplitNetloc(ref) == ("", ref);
    assert '#' !in ref;
    assert SplitAt(ref, '?') == ("", q) by {
      assert IndexOf(ref, '?', 0) == 0;
      assert ref[1..] == q;
    }
  }

  /** `..` cannot climb above the root: `"../a.png"` gives `"https://smutba.se/a.png"`. */
  lemma JoinRootDotDot(name: string)
    requires name != [] && name != "." && name != ".."
    requires forall k :: 0 <= k < |name| ==> name[k] !in "/?#;\t\r\n"
    ensures JoinRoot("../" + name) == ROOT_URL + "/" + name
  {
    var ref := "../" + name;
    NameChars(name);
    assert '\t' !in ref && '\r' !in ref && '\n' !in ref && '#' !in ref && '?' !in ref && ';' !in ref;
    ParseBarePath(ref);
    ResolveDotDot(name);
    assert JoinRoot(ref) == Unparse(ROOT_HOST, name, "", "", "");
    UnparseRelative(ROOT_HOST, name);
    RootUrlParts();
  }

  /** A path without a leading slash gets one. */
  lemma UnparseRelative(netloc: string, path: string)
    requires path != [] && path[0] != '/'
    ensures Unparse(netloc, path, "", "", "") == "https://" + netloc + "/" + path
  {
  }

  lemma ResolveDotDot(name: string)
    requires name != [] && name != "." && name != ".." && '/' !in name
    ensures ResolvePath("../" + name) == name
  {
    var ref := "../" + name;
    assert ResolvePath(ref) == name by {
      assert LastIndexOf(ref, '/') == 2;
      assert ref[..2] == ".." && ref[3..] == name;
      assert Split(ref[..2], '/') == [".."];
      assert Split(ref, '/') == ["..", name];
      assert ["..", name][..1] == [".."];
      assert NonEmpty([".."]) == [".."] by {
        assert [".."][..0] == [];
      }
      assert Segments(ref) == ["", "..", name];
      assert RemoveDots(["", "..", name]) == [name] by {
        assert ["", "..", name][..2] == ["", ".."];
        assert ["", ".."][..1] == [""];
        assert [""][..0] == [];
      }
    }
  }

  lemma NameChars(name: string)
    requires forall k :: 0 <= k < |name| ==> name[k] !in "/?#;\t\r\n"
    ensures '/' !in name && '\t' !in name && '\r' !in name && '\n' !in name
    ensures '#' !in name && '?' !in name && ';' !in name
  {
    forall k | 0 <= k < |name|
      ensures name[k] != '/' && name[k] != '\t' && name[k] != '\r' && name[k] != '\n'
      ensures name[k] != '#' && name[k] != '?' && name[k] != ';'
    {
      assert name[k] !in "/?#;\t\r\n";
    }
  }

  /** A reference with its own host keeps it and its path, and takes the root's scheme:
      `"//cdn.example/x.png"` gives `"https://cdn.example/x.png"`. */
  lemma JoinRootNetworkPath(host: string, path: string)
    requires host != [] && forall k :: 0 <= k < |host| ==> host[k] !in "/?#;\t\r\n"
    requires path == [] || (path[0] == '/' && forall k :: 0 <= k < |path| ==> path[k] !in "?#;\t\r\n")
    ensures JoinRoot("//" + host + path) == "https://" + host + path
  {
    NameChars(host);
    if path != [] {
      PlainPathChars(path);
    }
    ParseNetworkPath(host, path);
    assert JoinRoot("//" + host + path) == Unparse(host, path, "", "", "");
    UnparsePath(host, path);
  }

  lemma ParseNetworkPath(host: string, path: string)
    requires host != [] && '/' !in host && '?' !in host && '#' !in host
    requires '\t' !in host && '\r' !in host && '\n' !in host
    requires path == [] || path[0] == '/'
    requires '\t' !in path && '\r' !in path && '\n' !in path && '#' !in path && '?' !in path && ';' !in path
    ensures Parse("//" + host + path) == UrlParts("https", host, path, "", "", "")
  {
    var ref := "//" + host + path;
    NetworkPathComponents(host, path);
    assert '\t' !in ref && '\r' !in ref && '\n' !in ref;
    CleanPlain(ref);
  }

  lemma NetworkPathComponents(host: string, path: string)
    requires host != [] && '/' !in host && '?' !in host && '#' !in host
    requires path == [] || path[0] == '/'
    requires '#' !in path && '?' !in path && ';' !in path
    ensures Components("//" + host + path) == UrlParts("https", host, path, "", "", "")
  {
    var ref := "//" + host + path;
    assert NetlocEnd(ref, 2) == 2 + |host| by {
      NetlocEndAt(ref, 2, 2 + |host|);
    }
    assert ref[2..2 + |host|] == host && ref[2 + |host|..] == path;
    assert SplitNetloc(ref) == (host, path);
  }

  /** The network location ends at the first `/`, `?` or `#` after its start. */
  lemma {:induction false} NetlocEndAt(s: string, from: nat, k: nat)
    requires from <= k <= |s|
    requires forall j :: from <= j < k ==> !IsNetlocEnd(s[j])
    requires k == |s| || IsNetlocEnd(s[k])
    ensures NetlocEnd(s, from) == k
    decreases k - from
  {
    if from < k {
      NetlocEndAt(s, from + 1, k);
    }
  }

  /** Cleaning leaves alone a reference that starts with a printable character and holds
      no tab or line break. */
  lemma CleanPlain(ref: string)
    requires ref != [] && !IsControlOrSpace(ref[0])
    requires '\t' !in ref && '\r' !in ref && '\n' !in ref
    ensures Clean(ref) == ref
  {
    DropBreaksAbsent(ref);
  }

  lemma {:induction false} DropBreaksAbsent(s: string)
    requires '\t' !in s && '\r' !in s && '\n' !in s
    ensures DropBreaks(s) == s
  {
    if s != [] {
      DropBreaksAbsent(s[..|s| - 1]);
      assert s[..|s| - 1] + [s[|s| - 1]] == s;
    }
  }

  /** A lazy-loading placeholder such as a `data:` URL is returned unchanged. */
  lemma JoinRootDataUrl(rest: string)
    requires '\t' !in rest && '\r' !in rest && '\n' !in rest
    ensures JoinRoot("data:" + rest) == "data:" + rest
  {
    var ref := "data:" + rest;
    assert forall k :: 0 <= k < 4 ==> IsAsciiLetter(ref[k]);
    assert '\t' !in ref && '\r' !in ref && '\n' !in ref;
    JoinRootKeepsOtherSchemes(ref, 4);
  }
}
