/** The download page of web/src/main.ts: each download button is pointed
    at the release asset whose name contains every pattern of the button's
    platform, ignoring case, or at the releases page when there is none.
    Case folding is ASCII only. The fetched release is a parameter and the
    buttons are objects with a fixed platform and a mutable link. */
module WebDownloads {
  import opened Common

  const GitHubRepo: string := "Tekipeps/rmbg"

  /** The link every button falls back to. */
  const FallbackUrl: string := "https://github.com/" + GitHubRepo + "/releases/latest"

  datatype Asset = Asset(name: string, url: string)

  /** The release as fetched; a payload without an `assets` list has None. */
  datatype Release = Release(assets: Option<seq<Asset>>)

  /** The file-name patterns of each platform. */
  const DownloadPatterns: map<string, seq<string>> := map[
    "macos-x64" := [".dmg", "x86_64-apple-darwin"],
    "macos-arm64" := [".dmg", "aarch64-apple-darwin"],
    "linux-x64" := [".AppImage", "x86_64-unknown-linux-gnu"],
    "windows-x64" := [".msi", "x86_64-pc-windows-msvc"]
  ]

  // ---------------------------------------------------------------------
  // Case folding and substring search
  // ---------------------------------------------------------------------

  function LowerChar(c: char): char {
    if 'A' <= c <= 'Z' then (c as int + 32) as char else c
  }

  function UpperChar(c: char): char {
    if 'a' <= c <= 'z' then (c as int - 32) as char else c
  }

  /** String.prototype.toLowerCase on ASCII letters. */
  function Lower(s: string): (t: string)
    ensures |t| == |s|
    ensures forall i :: 0 <= i < |s| ==> t[i] == LowerChar(s[i])
  {
    seq(|s|, i requires 0 <= i < |s| => LowerChar(s[i]))
  }

  /** String.prototype.toUpperCase on ASCII letters. */
  function Upper(s: string): (t: string)
    ensures |t| == |s|
    ensures forall i :: 0 <= i < |s| ==> t[i] == UpperChar(s[i])
  {
    seq(|s|, i requires 0 <= i < |s| => UpperChar(s[i]))
  }

  /** Lower-casing twice is lower-casing once. */
  lemma LowerIdempotent(s: string)
    ensures Lower(Lower(s)) == Lower(s)
  {
  }

  /** Upper-casing first does not change the lower-cased string. */
  lemma LowerOfUpper(s: string)
    ensures Lower(Upper(s)) == Lower(s)
  {
  }

  /** String.prototype.includes: sub occurs in s at some position. */
  function Includes(s: string, sub: string): (b: bool)
    ensures b <==> exists i :: 0 <= i <= |s| - |sub| && sub <= s[i..]
    decreases |s|
  {
    if sub <= s then assert s[0..] == s; true
    else if |s| <= |sub| then false
    else
      var b := Includes(s[1..], sub);
      assert forall i :: 1 <= i <= |s| - |sub| ==> s[i..] == s[1..][i - 1..];
      b
  }

  // ---------------------------------------------------------------------
  // findAssetUrl
  // ---------------------------------------------------------------------

  /** The `every` of findAssetUrl: the lower-cased name includes each
      lower-cased pattern. */
  predicate MatchesAll(name: string, patterns: seq<string>) {
    forall k :: 0 <= k < |patterns| ==> Includes(Lower(name), Lower(patterns[k]))
  }

  /** findAssetUrl: the download URL of the first asset, in list order,
      whose name matches every pattern, or None when no asset does. */
  function FindAssetUrl(assets: seq<Asset>, patterns: seq<string>): (r: Option<string>)
    ensures r.None? <==> forall i :: 0 <= i < |assets| ==> !MatchesAll(assets[i].name, patterns)
    ensures r.Some? ==>
              exists k :: && 0 <= k < |assets|
                          && MatchesAll(assets[k].name, patterns)
                          && (forall j :: 0 <= j < k ==> !MatchesAll(assets[j].name, patterns))
                          && r.value == assets[k].url
  {
    match FirstIndex(assets, (a: Asset) => MatchesAll(a.name, patterns))
    case None => None
    case Some(k) => Some(assets[k].url)
  }

  /** An empty asset list never yields a link. */
  lemma NoAssetsNoUrl(patterns: seq<string>)
    ensures FindAssetUrl([], patterns) == None
  {
  }

  /** With no patterns, the first asset matches. */
  lemma EmptyPatternsMatchFirst(assets: seq<Asset>)
    requires |assets| > 0
    ensures FindAssetUrl(assets, []) == Some(assets[0].url)
  {
    assert MatchesAll(assets[0].name, []);
  }

  /** Two strings that agree up to ASCII case. */
  predicate SameUpToCase(s: string, t: string) {
    Lower(s) == Lower(t)
  }

  /** Matching depends on names and patterns only up to case. */
  lemma MatchesAllUpToCase(name: string, name': string, patterns: seq<string>, patterns': seq<string>)
    requires SameUpToCase(name, name')
    requires |patterns| == |patterns'| && forall k :: 0 <= k < |patterns| ==> SameUpToCase(patterns[k], patterns'[k])
    ensures MatchesAll(name, patterns) == MatchesAll(name', patterns')
  {
  }

  /** findAssetUrl is case-insensitive: renaming assets and rewriting
      patterns in other letter cases gives the same URL. */
  lemma {:induction false} FindAssetUrlUpToCase(assets: seq<Asset>, assets': seq<Asset>,
                                               patterns: seq<string>, patterns': seq<string>)
    requires |assets| == |assets'|
    requires forall i :: 0 <= i < |assets| ==> SameUpToCase(assets[i].name, assets'[i].name) && assets[i].url == assets'[i].url
    requires |patterns| == |patterns'| && forall k :: 0 <= k < |patterns| ==> SameUpToCase(patterns[k], patterns'[k])
    ensures FindAssetUrl(assets, patterns) == FindAssetUrl(assets', patterns')
  {
    var p := (a: Asset) => MatchesAll(a.name, patterns);
    var q := (a: Asset) => MatchesAll(a.name, patterns');
    forall i | 0 <= i < |assets| ensures p(assets[i]) == q(assets'[i]) {
      MatchesAllUpToCase(assets[i].name, assets'[i].name, patterns, patterns');
    }
    FirstIndexAgrees(assets, assets', p, q);
  }

  /** Upper-casing every asset name does not change the result. */
  lemma FindAssetUrlIgnoresNameCase(assets: seq<Asset>, patterns: seq<string>)
    ensures FindAssetUrl(seq(|assets|, i requires 0 <= i < |assets| => Asset(Upper(assets[i].name), assets[i].url)), patterns)
            == FindAssetUrl(assets, patterns)
  {
    var upper := seq(|assets|, i requires 0 <= i < |assets| => Asset(Upper(assets[i].name), assets[i].url));
    forall i | 0 <= i < |assets| ensures SameUpToCase(upper[i].name, assets[i].name) {
      LowerOfUpper(assets[i].name);
    }
    FindAssetUrlUpToCase(upper, assets, patterns, patterns);
  }

  // ---------------------------------------------------------------------
  // updateDownloadLinks
  // ---------------------------------------------------------------------

  /** A `.download-button` anchor: its `data-os` attribute and its link. */
  class DownloadButton {
    const os: Option<string>
    var href: string

    constructor (os: Option<string>, href: string)
      ensures this.os == os && this.href == href
    {
      this.os := os;
      this.href := href;
    }
  }

  /** `os ? DOWNLOAD_PATTERNS[os] : undefined`: a missing or empty
      attribute has no patterns, nor has a platform outside the table. */
  function PatternsFor(os: Option<string>): (r: Option<seq<string>>)
    ensures r.Some? <==> os.Some? && os.value != "" && os.value in DownloadPatterns
    ensures r.Some? ==> r.value == DownloadPatterns[os.value]
  {
    match os
    case None => None
    case Some(name) => if name != "" && name in DownloadPatterns then Some(DownloadPatterns[name]) else None
  }

  /** The link a button ends with, given the one it had. Without release
      data or assets every button falls back; otherwise a button with
      patterns gets the matching URL, or falls back when there is none or
      it is empty, and any other button keeps its link. */
  function LinkFor(href: string, os: Option<string>, release: Option<Release>): string {
    if release.None? || release.value.assets.None? then FallbackUrl
    else
      match PatternsFor(os)
      case None => href
      case Some(patterns) =>
        match FindAssetUrl(release.value.assets.value, patterns)
        case Some(url) => if url != "" then url else FallbackUrl
        case None => FallbackUrl
  }

  /** The cases of LinkFor, each in both directions. */
  lemma LinkForCases(href: string, os: Option<string>, release: Option<Release>)
    ensures release.None? || release.value.assets.None? ==> LinkFor(href, os, release) == FallbackUrl
    ensures release.Some? && release.value.assets.Some? && PatternsFor(os).None? ==>
              LinkFor(href, os, release) == href
    ensures release.Some? && release.value.assets.Some? && PatternsFor(os).Some? ==>
              var found := FindAssetUrl(release.value.assets.value, PatternsFor(os).value);
              && (found.Some? && found.value != "" ==> LinkFor(href, os, release) == found.value)
              && (found.None? || found.value == "" ==> LinkFor(href, os, release) == FallbackUrl)
  {
  }

  /** Updating twice with the same release is updating once. */
  lemma LinkForIdempotent(href: string, os: Option<string>, release: Option<Release>)
    ensures LinkFor(LinkFor(href, os, release), os, release) == LinkFor(href, os, release)
  {
  }

  /** setFallbackLink */
  method SetFallbackLink(button: DownloadButton)
    modifies button
    ensures button.href == FallbackUrl
  {
    button.href := FallbackUrl;
  }

  /** setFallbackLinks: every button gets the fallback link. */
  method SetFallbackLinks(buttons: seq<DownloadButton>)
    modifies set b | b in buttons
    ensures forall i :: 0 <= i < |buttons| ==> buttons[i].href == FallbackUrl
  {
    for i := 0 to |buttons|
      invariant forall j :: 0 <= j < i ==> buttons[j].href == FallbackUrl
    {
      SetFallbackLink(buttons[i]);
    }
  }

  /** The body of the forEach in updateDownloadLinks, for one button, once
      the release is known to list assets. */
  method UpdateLink(button: DownloadButton, release: Option<Release>)
    requires release.Some? && release.value.assets.Some?
    modifies button
    ensures button.href == LinkFor(old(button.href), button.os, release)
  {
    var patterns := PatternsFor(button.os);
    if patterns.Some? {
      var url := FindAssetUrl(release.value.assets.value, patterns.value);
      if url.Some? && url.value != "" {
        button.href := url.value;
      } else {
        SetFallbackLink(button);
      }
    }
  }

  /** updateDownloadLinks over the page's buttons (distinct objects, as
      querySelectorAll returns them): each button's link becomes LinkFor
      of its old link. */
  method UpdateDownloadLinks(buttons: seq<DownloadButton>, release: Option<Release>)
    requires forall i, j :: 0 <= i < j < |buttons| ==> buttons[i] != buttons[j]
    modifies set b | b in buttons
    ensures forall i :: 0 <= i < |buttons| ==>
              buttons[i].href == LinkFor(old(buttons[i].href), buttons[i].os, release)
  {
    if release.None? || release.value.assets.None? {
      SetFallbackLinks(buttons);
      return;
    }
    for i := 0 to |buttons|
      invariant forall j :: 0 <= j < i ==> buttons[j].href == LinkFor(old(buttons[j].href), buttons[j].os, release)
      invariant forall j :: i <= j < |buttons| ==> buttons[j].href == old(buttons[j].href)
    {
      var button := buttons[i];
      assert forall j :: 0 <= j < |buttons| && j != i ==> buttons[j] != button;
      UpdateLink(button, release);
    }
  }
}
