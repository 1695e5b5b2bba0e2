/** `get_repo_from_url`: the local directory name for a clone URL, the last
    segment of the URL's path without its extension. The path is extracted
    as Python's `urllib.parse.urlparse` does (scheme, `//authority`,
    fragment, query and `;params` are cut away), the last segment as
    `os.path.split` does and the extension as `os.path.splitext` does. */
module Util {
  import opened Wrappers

  /** `s.find(c, start)`: the first index at or after `start` holding `c`,
      or -1. */
  function Find(s: string, c: char, start: nat): (r: int)
    ensures r == -1 || start <= r < |s|
    ensures r >= 0 ==> s[r] == c && forall i :: start <= i < r ==> s[i] != c
    ensures r == -1 ==> forall i :: start <= i < |s| ==> s[i] != c
    decreases |s| - start
  {
    if start >= |s| then -1
    else if s[start] == c then start
    else Find(s, c, start + 1)
  }

  /** `s.rfind(c)`: the last index holding `c`, or -1. */
  function RFind(s: string, c: char): (r: int)
    ensures -1 <= r < |s|
    ensures r >= 0 ==> s[r] == c
    ensures forall i :: r < i < |s| ==> s[i] != c
  {
    if s == [] then -1
    else if s[|s| - 1] == c then |s| - 1
    else RFind(s[..|s| - 1], c)
  }

  predicate IsAsciiLetter(c: char) {
    'a' <= c <= 'z' || 'A' <= c <= 'Z'
  }

  predicate IsSchemeChar(c: char) {
    IsAsciiLetter(c) || '0' <= c <= '9' || c == '+' || c == '-' || c == '.'
  }

  function LowerChar(c: char): char {
    if 'A' <= c <= 'Z' then (c as int + 32) as char else c
  }

  function Lower(s: string): string {
    seq(|s|, i requires 0 <= i < |s| => LowerChar(s[i]))
  }

  /** The schemes whose last path segment may carry `;params`. */
  const UsesParams: seq<string> := ["", "ftp", "hdl", "prospero", "http", "imap", "https", "shttp",
    "rtsp", "rtsps", "rtspu", "sip", "sips", "mms", "sftp", "tel"]

  /** The scheme (lower-cased) and the rest: the text before the first `:`
      is a scheme when it is non-empty, starts with a letter and holds only
      scheme characters. */
  function SplitScheme(url: string): (string, string) {
    var i := Find(url, ':', 0);
    if i > 0 && IsAsciiLetter(url[0]) && forall j :: 0 <= j < i ==> IsSchemeChar(url[j])
    then (Lower(url[..i]), url[i + 1..])
    else ("", url)
  }

  function Min(a: int, b: int): int {
    if a < b then a else b
  }

  /** Where the authority after a leading `//` ends: at the first `/`, `?`
      or `#` after it, or at the end. */
  function NetlocEnd(rest: string): (r: nat)
    ensures 2 <= r || r == |rest|
    ensures r <= |rest|
  {
    var candidates := [Find(rest, '/', 2), Find(rest, '?', 2), Find(rest, '#', 2)];
    var a := if candidates[0] >= 0 then candidates[0] else |rest|;
    var b := if candidates[1] >= 0 then Min(a, candidates[1]) else a;
    if candidates[2] >= 0 then Min(b, candidates[2]) else b
  }

  /** The text before the first `c`, all of `s` when there is none. */
  function BeforeFirst(s: string, c: char): (r: string)
    ensures |r| <= |s| && c !in r && s[..|r|] == r
  {
    var i := Find(s, c, 0);
    if i < 0 then s else s[..i]
  }

  /** Cuts `;params` off the last segment of a path that contains `;`. */
  function StripParams(p: string): (r: string)
    requires ';' in p
    ensures |r| <= |p| && p[..|r|] == r
  {
    var slash := RFind(p, '/');
    if slash >= 0 then
      var i := Find(p, ';', slash);
      if i < 0 then p else p[..i]
    else
      p[..Find(p, ';', 0)]
  }

  /** The `path` component of `urlparse(url)`: the fragment and the query
      are never part of it. */
  function UrlPath(url: string): (r: string)
    ensures '#' !in r && '?' !in r
  {
    var (scheme, rest) := SplitScheme(url);
    var afterNetloc := if |rest| >= 2 && rest[..2] == "//" then rest[NetlocEnd(rest)..] else rest;
    var noQuery := BeforeFirst(BeforeFirst(afterNetloc, '#'), '?');
    PrefixLacks(BeforeFirst(afterNetloc, '#'), noQuery, '#');
    if scheme in UsesParams && ';' in noQuery then
      PrefixLacks(noQuery, StripParams(noQuery), '#');
      PrefixLacks(noQuery, StripParams(noQuery), '?');
      StripParams(noQuery)
    else noQuery
  }

  lemma PrefixLacks(s: string, p: string, c: char)
    requires |p| <= |s| && s[..|p|] == p && c !in s
    ensures c !in p
  {
    assert forall i :: 0 <= i < |p| ==> p[i] == s[i];
  }

  /** `os.path.split(path)[-1]`: everything after the last `/`. */
  function PathTail(path: string): (r: string)
    ensures |r| <= |path| && '/' !in r
    ensures path[|path| - |r|..] == r
    ensures |r| == |path| || path[|path| - |r| - 1] == '/'
  {
    path[RFind(path, '/') + 1..]
  }

  /** `os.path.splitext(p)[0]`: `p` without its last extension; a dot that
      only dots precede (a leading-dot name) starts no extension. */
  function SplitExtRoot(p: string): (r: string)
    ensures |r| <= |p| && p[..|r|] == r
  {
    var sep := RFind(p, '/');
    var dot := RFind(p, '.');
    if dot > sep && exists i :: sep + 1 <= i < dot && p[i] != '.' then p[..dot] else p
  }

  /** `get_repo_from_url`; `None` when the URL has an empty path. Otherwise
      the last segment of the path, which loses its last extension exactly
      when a non-dot character precedes one of its dots. */
  function GetRepoFromUrl(url: string): (r: Option<string>)
    ensures r.None? <==> UrlPath(url) == ""
    ensures r.Some? ==> '/' !in r.value
    ensures r.Some? ==> var tail := PathTail(UrlPath(url));
      && |r.value| <= |tail| && tail[..|r.value|] == r.value
      && (r.value != tail <==> exists i, j :: 0 <= i < j < |tail| && tail[i] != '.' && tail[j] == '.')
      && (r.value != tail ==> tail[|r.value|] == '.' && '.' !in tail[|r.value| + 1..])
  {
    var path := UrlPath(url);
    if path == "" then None
    else
      var tail := PathTail(path);
      var root := SplitExtRoot(tail);
      assert forall i :: 0 <= i < |root| ==> root[i] == tail[i];
      SplitExtStripsLastExtension(tail);
      Some(root)
  }

  /** On a name without `/`, splitext removes something exactly when some
      non-dot character comes before a dot; what it removes is the last
      dot and what follows it, which holds no other dot. */
  lemma SplitExtStripsLastExtension(p: string)
    requires '/' !in p
    ensures var root := SplitExtRoot(p);
      && p[..|root|] == root
      && (root != p <==> exists i, j :: 0 <= i < j < |p| && p[i] != '.' && p[j] == '.')
      && (root != p ==> p[|root|] == '.' && '.' !in p[|root| + 1..])
  {
    var root := SplitExtRoot(p);
    var dot := RFind(p, '.');
    if exists i, j :: 0 <= i < j < |p| && p[i] != '.' && p[j] == '.' {
      var i, j :| 0 <= i < j < |p| && p[i] != '.' && p[j] == '.';
      assert j <= dot;
      if i >= dot {
        assert false;
      }
    }
    if root != p {
      assert p[dot + 1..] == p[|root| + 1..];
    }
  }

  lemma FindAt(s: string, c: char, start: nat, k: nat)
    requires start <= k < |s| && s[k] == c && c !in s[start..k]
    ensures Find(s, c, start) == k
  {
  }

  lemma RFindAt(s: string, c: char, k: nat)
    requires k < |s| && s[k] == c && c !in s[k + 1..]
    ensures RFind(s, c) == k
  {
  }

  lemma FindNone(s: string, c: char, start: nat)
    requires start <= |s| && c !in s[start..]
    ensures Find(s, c, start) == -1
  {
  }

  lemma RFindNone(s: string, c: char)
    requires c !in s
    ensures RFind(s, c) == -1
  {
  }

  /** A URL starting with `https:` has the scheme `https`. */
  lemma HttpsScheme(url: string)
    requires |url| > 6 && url[..6] == "https:"
    ensures SplitScheme(url) == ("https", url[6..])
  {
    assert url[..5] == "https";
    FindAt(url, ':', 0, 5);
    forall j | 0 <= j < 5 ensures IsSchemeChar(url[j]) && LowerChar(url[j]) == url[j] {
      assert url[j] == url[..5][j];
    }
    assert Lower(url[..5]) == "https";
  }

  /** For an `https://host/path` URL whose path holds no `?`, `#` or `;`,
      the path is exactly what follows the host. */
  lemma HttpsUrlPath(url: string, host: string, path: string)
    requires url == "https://" + host + path
    requires '/' !in host && '?' !in host && '#' !in host
    requires '?' !in path && '#' !in path && ';' !in path
    requires path == [] || path[0] == '/'
    ensures UrlPath(url) == path
  {
    var rest := "//" + host + path;
    assert url == "https:" + rest;
    HttpsScheme(url);
    assert rest[2..] == host + path;
    assert rest[2..2 + |host|] == host;
    if path == [] {
      FindNone(rest, '/', 2);
    } else {
      FindAt(rest, '/', 2, 2 + |host|);
    }
    FindNone(rest, '?', 2);
    FindNone(rest, '#', 2);
    assert NetlocEnd(rest) == 2 + |host|;
    assert rest[NetlocEnd(rest)..] == path;
    assert path[0..] == path;
    FindNone(path, '#', 0);
    FindNone(path, '?', 0);
    assert BeforeFirst(BeforeFirst(path, '#'), '?') == path;
  }

  lemma RepoFromPath(url: string, path: string)
    requires UrlPath(url) == path && path != ""
    ensures GetRepoFromUrl(url) == Some(SplitExtRoot(PathTail(path)))
  {
  }

  lemma OwnerPathTail(owner: string, tail: string)
    requires '/' !in owner && '/' !in tail
    ensures PathTail("/" + owner + "/" + tail) == tail
  {
    var path := "/" + owner + "/" + tail;
    assert path[1 + |owner|] == '/';
    assert path[1 + |owner| + 1..] == tail;
    RFindAt(path, '/', 1 + |owner|);
  }

  lemma GitSuffixStripped(name: string)
    requires name != [] && '/' !in name && '.' !in name
    ensures SplitExtRoot(name + ".git") == name
  {
    var p := name + ".git";
    assert p[|name|] == '.';
    assert p[|name| + 1..] == "git";
    RFindAt(p, '.', |name|);
    assert '/' !in p;
    RFindNone(p, '/');
    assert p[0] == name[0];
    assert p[..|name|] == name;
  }

  /** A URL whose path is `/owner/name.git` gives `name`. */
  lemma ClonePathGivesName(url: string, owner: string, name: string)
    requires UrlPath(url) == "/" + owner + "/" + name + ".git"
    requires '/' !in owner
    requires name != [] && '/' !in name && '.' !in name
    ensures GetRepoFromUrl(url) == Some(name)
  {
    var tail := name + ".git";
    var path := "/" + owner + "/" + tail;
    assert UrlPath(url) == path;
    assert '/' !in tail;
    OwnerPathTail(owner, tail);
    GitSuffixStripped(name);
    NamedByPath(url, path, name);
  }

  lemma NamedByPath(url: string, path: string, name: string)
    requires UrlPath(url) == path && path != ""
    requires SplitExtRoot(PathTail(path)) == name
    ensures GetRepoFromUrl(url) == Some(name)
  {
    RepoFromPath(url, path);
  }

  /** A clone URL `https://host/owner/name.git` gives `name`, for any
      owner and any dot-free name without URL delimiters. */
  lemma CloneUrlGivesName(url: string, host: string, owner: string, name: string)
    requires url == "https://" + host + "/" + owner + "/" + name + ".git"
    requires '/' !in host && '?' !in host && '#' !in host
    requires '/' !in owner && '?' !in owner && '#' !in owner && ';' !in owner
    requires name != [] && '/' !in name && '?' !in name && '#' !in name && ';' !in name && '.' !in name
    ensures GetRepoFromUrl(url) == Some(name)
  {
    var path := "/" + owner + "/" + name + ".git";
    assert url == "https://" + host + path;
    assert '?' !in path && '#' !in path && ';' !in path;
    HttpsUrlPath(url, host, path);
    ClonePathGivesName(url, owner, name);
  }

  lemma DiskAnnUrlParts(url: string)
    requires url == "https://github.com/microsoft/DiskANN.git"
    ensures url == "https://" + "github.com" + "/" + "microsoft" + "/" + "DiskANN" + ".git"
  {
  }

  lemma DiskAnnPartsPlain()
    ensures '/' !in "github.com" && '?' !in "github.com" && '#' !in "github.com"
    ensures '/' !in "microsoft" && '?' !in "microsoft" && '#' !in "microsoft" && ';' !in "microsoft"
    ensures '/' !in "DiskANN" && '?' !in "DiskANN" && '#' !in "DiskANN" && ';' !in "DiskANN" && '.' !in "DiskANN"
  {
  }

  /** The documented example: the clone URL of DiskANN gives `DiskANN`. */
  lemma DiskAnnExample(url: string)
    requires url == "https://github.com/microsoft/DiskANN.git"
    ensures GetRepoFromUrl(url) == Some("DiskANN")
  {
    DiskAnnUrlParts(url);
    DiskAnnPartsPlain();
    CloneUrlGivesName(url, "github.com", "microsoft", "DiskANN");
  }

  /** A URL without a path, such as a bare host, gives `None`. */
  lemma BareHostHasNoRepo(url: string)
    requires url == "https://github.com"
    ensures GetRepoFromUrl(url).None?
  {
    HttpsUrlPath(url, "github.com", "");
  }

  /** Only the last extension goes: `a.b.git` gives `a.b`. */
  lemma OnlyLastExtensionStripped()
    ensures SplitExtRoot("a.b.git") == "a.b"
  {
    var p := "a.b.git";
    assert p[4..] == "git";
    RFindAt(p, '.', 3);
    RFindNone(p, '/');
    assert p[0] != '.';
  }

  /** A leading-dot name with no other dot, such as `.git`, is kept whole. */
  lemma LeadingDotNameKept()
    ensures SplitExtRoot(".git") == ".git"
  {
    var p := ".git";
    assert p[1..] == "git";
    RFindAt(p, '.', 0);
    RFindNone(p, '/');
  }
  /** A path ending in `/` gives the empty name. */
  lemma TrailingSlashGivesEmpty(url: string)
    requires UrlPath(url) != "" && UrlPath(url)[|UrlPath(url)| - 1] == '/'
    ensures GetRepoFromUrl(url) == Some("")
  {
  }
}
