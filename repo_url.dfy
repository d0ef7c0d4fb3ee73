/**
 * The repository-URL parse shared by the documentation page and the Q&A page
 * (`handleRepoUrl` in src/app/docs/page.tsx and src/app/qa/page.tsx): drop one
 * trailing slash, split on '/', and take the last segment as the repository
 * and the one before it as the owner, whatever precedes them.
 */
module RepoUrl {
  import opened Wrappers
  import opened Js
  import opened GitHub

  const InvalidUrl := "Invalid GitHub URL"

  datatype RepoRef = RepoRef(owner: string, name: string)

  /** `owner/repo` */
  function FullName(r: RepoRef): string {
    r.owner + "/" + r.name
  }

  /** `url.replace(/\/$/, "")`: at most one trailing slash is removed. */
  function StripTrailingSlash(url: string): (s: string)
    ensures if |url| > 0 && url[|url| - 1] == '/' then url == s + "/" else s == url
  {
    if |url| > 0 && url[|url| - 1] == '/' then url[..|url| - 1] else url
  }

  /** `None` where the page reports `'Invalid GitHub URL'`. */
  function ParseRepoUrl(url: string): (r: Option<RepoRef>)
    ensures r.Some? ==> r.value.owner != "" && r.value.name != ""
    ensures r.Some? ==> '/' !in r.value.owner && '/' !in r.value.name
  {
    LastTwoSegments(Split(StripTrailingSlash(url)))
  }

  /** The owner and name `handleRepoUrl` picks out of the segments: the last
      one and the one before it (which is `undefined` with a single segment). */
  function LastTwoSegments(parts: seq<string>): Option<RepoRef>
    requires |parts| >= 1
  {
    var name := parts[|parts| - 1];
    var owner := if |parts| >= 2 then parts[|parts| - 2] else "";
    if owner == "" || name == "" then None else Some(RepoRef(owner, name))
  }

  /** The repository-details request `handleRepoUrl` makes, if any: none for a
      URL it rejects. */
  function RepoDetailsRequest(url: string): Option<string> {
    match ParseRepoUrl(url)
    case None => None
    case Some(r) => Some(ApiUrl + "/repos/" + FullName(r))
  }

  /** A successful parse found the last two slash-separated segments, both
      non-empty, at the end of the URL (after at most one trailing slash);
      `prefix`, what precedes them, is empty or ends in a slash. */
  lemma ParseRepoUrlSound(url: string) returns (prefix: string)
    requires ParseRepoUrl(url).Some?
    ensures var r := ParseRepoUrl(url).value;
      r.owner != "" && r.name != "" && '/' !in r.owner && '/' !in r.name &&
      (prefix == "" || prefix[|prefix| - 1] == '/') &&
      StripTrailingSlash(url) == prefix + r.owner + "/" + r.name
  {
    var s := StripTrailingSlash(url);
    JoinSplit(s);
    prefix := LastTwoSegmentsSound(Split(s));
  }

  /** The segments picked are the last two, slash-free when all segments are,
      and the join ends with them. */
  lemma LastTwoSegmentsSound(parts: seq<string>) returns (prefix: string)
    requires |parts| >= 1 && LastTwoSegments(parts).Some?
    requires forall i :: 0 <= i < |parts| ==> '/' !in parts[i]
    ensures var r := LastTwoSegments(parts).value;
      r.owner != "" && r.name != "" && '/' !in r.owner && '/' !in r.name &&
      (prefix == "" || prefix[|prefix| - 1] == '/') &&
      Join(parts) == prefix + r.owner + "/" + r.name
  {
    var n := |parts|;
    assert n >= 2 && LastTwoSegments(parts).value == RepoRef(parts[n - 2], parts[n - 1]);
    prefix := LastTwo(parts);
  }

  /** The join of two or more segments ends with the last two, after nothing or a slash. */
  lemma LastTwo(parts: seq<string>) returns (prefix: string)
    requires |parts| >= 2
    ensures prefix == "" || prefix[|prefix| - 1] == '/'
    ensures Join(parts) == prefix + parts[|parts| - 2] + "/" + parts[|parts| - 1]
  {
    var n := |parts|;
    var owner, name := parts[n - 2], parts[n - 1];
    JoinTail(parts);
    if n == 2 {
      prefix := "";
      assert Join(parts) == owner + "/" + name;
      assert "" + owner == owner;
    } else {
      var head := parts[..n - 2];
      assert head + parts[n - 2..] == parts;
      JoinConcat(head, parts[n - 2..]);
      prefix := Join(head) + "/";
      assert Join(parts) == prefix + (owner + "/" + name);
      ConcatAssoc3(prefix, owner, "/", name);
    }
  }

  /** Conversely, any URL ending in `owner/name` (non-empty, slash-free), after an
      optional prefix that ends in '/', and optionally one trailing slash, parses
      to that owner and name. */
  lemma ParseRepoUrlComplete(prefix: string, owner: string, name: string, trailing: bool)
    requires prefix == "" || prefix[|prefix| - 1] == '/'
    requires owner != "" && name != "" && '/' !in owner && '/' !in name
    ensures ParseRepoUrl(prefix + owner + "/" + name + (if trailing then "/" else "")) ==
            Some(RepoRef(owner, name))
  {
    var s := prefix + owner + "/" + name;
    StripOneSlash(s, trailing);
    assert prefix + owner + "/" + name + (if trailing then "/" else "") == s + (if trailing then "/" else "");
    var parts := EndsWithOwnerName(prefix, owner, name);
  }

  /** Only the appended slash is removed from a string that ends in some other character. */
  lemma StripOneSlash(s: string, trailing: bool)
    requires s != "" && s[|s| - 1] != '/'
    ensures StripTrailingSlash(s + (if trailing then "/" else "")) == s
  {
    if trailing {
      assert (s + "/")[..|s|] == s;
    } else {
      assert s + "" == s;
    }
  }

  /** The segments of `prefix + owner/name` end with the owner and the name. */
  lemma EndsWithOwnerName(prefix: string, owner: string, name: string) returns (head: seq<string>)
    requires prefix == "" || prefix[|prefix| - 1] == '/'
    requires '/' !in owner && '/' !in name
    ensures Split(prefix + owner + "/" + name) == head + [owner, name]
  {
    SplitNoSlash(owner);
    SplitNoSlash(name);
    SplitConcat(owner, name);
    if prefix == "" {
      assert prefix + owner + "/" + name == owner + "/" + name;
      head := [];
    } else {
      var p := prefix[..|prefix| - 1];
      assert prefix + owner + "/" + name == p + "/" + (owner + "/" + name);
      SplitConcat(p, owner + "/" + name);
      head := Split(p);
    }
  }
}
