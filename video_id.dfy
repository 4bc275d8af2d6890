/** `extractVideoId`: the two regular expressions of the downloader written as string predicates.
    Pattern one is `(?:youtube\.com\/watch\?v=|youtu\.be\/|youtube\.com\/embed\/)([^&\n?#]+)`,
    pattern two is `youtube\.com\/shorts\/([^&\n?#]+)`; both are unanchored, so `match` reports
    the leftmost position where the pattern matches and, at that position, the first alternative
    in order that leads to a match; the capture group is greedy. */
module VideoId {
  import opened Wrappers

  /** A character of the capture class `[^&\n?#]`. */
  predicate Allowed(c: char)
  {
    c != '&' && c != '\n' && c != '?' && c != '#'
  }

  const WatchPrefix: string := "youtube.com/watch?v="
  const ShortLinkPrefix: string := "youtu.be/"
  const EmbedPrefix: string := "youtube.com/embed/"
  const ShortsPrefix: string := "youtube.com/shorts/"

  /** The literal alternatives of pattern one, in the order the alternation tries them. */
  const LinkPattern: seq<string> := [WatchPrefix, ShortLinkPrefix, EmbedPrefix]
  /** The single literal of pattern two. */
  const ShortsPattern: seq<string> := [ShortsPrefix]
  /** The pattern list, in the order the loop consults it. */
  const Patterns: seq<seq<string>> := [LinkPattern, ShortsPattern]
  /** Every literal that may precede an extracted ID. */
  const AllPrefixes: seq<string> := LinkPattern + ShortsPattern

  /** The literal `p` occurs in `s` at position `i`. */
  predicate OccursAt(s: string, p: string, i: nat)
  {
    i + |p| <= |s| && s[i..i + |p|] == p
  }

  /** The alternative `p` followed by the capture group matches at position `i`:
      `p` occurs there and at least one allowed character follows it. */
  predicate Qualifies(s: string, p: string, i: nat)
  {
    OccursAt(s, p, i) && i + |p| < |s| && Allowed(s[i + |p|])
  }

  /** A possible ID: non-empty and made of allowed characters only. */
  predicate IsVideoId(id: string)
  {
    |id| > 0 && forall j :: 0 <= j < |id| ==> Allowed(id[j])
  }

  /** Length of the run of allowed characters that starts at `k`: what the greedy `+` consumes. */
  function RunLength(s: string, k: nat): (n: nat)
    requires k <= |s|
    ensures k + n <= |s|
    ensures forall j :: k <= j < k + n ==> Allowed(s[j])
    ensures k + n == |s| || !Allowed(s[k + n])
    decreases |s| - k
  {
    if k < |s| && Allowed(s[k]) then 1 + RunLength(s, k + 1) else 0
  }

  /** The text of the capture group when it starts at `k`. */
  function Capture(s: string, k: nat): string
    requires k <= |s|
  {
    s[k..k + RunLength(s, k)]
  }

  /** The first alternative of `alts`, in order, that matches at position `i`. */
  function AlternativeAt(s: string, alts: seq<string>, i: nat): (r: Option<string>)
    ensures r.Some? ==> exists k :: 0 <= k < |alts| && alts[k] == r.value && Qualifies(s, alts[k], i) &&
                                   (forall j :: 0 <= j < k ==> !Qualifies(s, alts[j], i))
    ensures r.None? ==> forall p :: p in alts ==> !Qualifies(s, p, i)
  {
    if alts == [] then None
    else if Qualifies(s, alts[0], i) then Some(alts[0])
    else
      var r := AlternativeAt(s, alts[1..], i);
      assert r.Some? ==> exists k :: 0 <= k < |alts| && alts[k] == r.value && Qualifies(s, alts[k], i) &&
                                     (forall j :: 0 <= j < k ==> !Qualifies(s, alts[j], i)) by {
        if r.Some? {
          var k :| 0 <= k < |alts| - 1 && alts[1..][k] == r.value && Qualifies(s, alts[1..][k], i) &&
                   (forall j :: 0 <= j < k ==> !Qualifies(s, alts[1..][j], i));
          forall j | 0 <= j < k + 1 ensures !Qualifies(s, alts[j], i) {
            if j > 0 { assert alts[j] == alts[1..][j - 1]; }
          }
          assert alts[k + 1] == r.value;
        }
      }
      r
  }

  /** The leftmost position at or after `i` where some alternative of `alts` matches,
      paired with the alternative that matches there. */
  function SearchFrom(s: string, alts: seq<string>, i: nat): (r: Option<(nat, string)>)
    ensures r.Some? ==> i <= r.value.0 && r.value.1 in alts && Qualifies(s, r.value.1, r.value.0)
    ensures r.Some? ==> forall j: nat, p :: i <= j < r.value.0 && p in alts ==> !Qualifies(s, p, j)
    ensures r.None? ==> forall j: nat, p :: i <= j && p in alts ==> !Qualifies(s, p, j)
    ensures r.Some? ==> AlternativeAt(s, alts, r.value.0) == Some(r.value.1)
    decreases |s| - i
  {
    if i >= |s| then None
    else match AlternativeAt(s, alts, i)
      case Some(p) => Some((i, p))
      case None => SearchFrom(s, alts, i + 1)
  }

  /** Some alternative of `alts` matches somewhere in `s`. */
  ghost predicate MatchesSomewhere(s: string, alts: seq<string>)
  {
    exists i: nat, p :: p in alts && Qualifies(s, p, i)
  }

  /** `id` is the capture taken after the alternative `p` matched at `i`, no alternative of
      `alts` matches further left, and `p` is the first alternative, in order, that matches at `i`. */
  ghost predicate LeftmostCapture(s: string, alts: seq<string>, id: string, p: string, i: nat)
  {
    p in alts && Qualifies(s, p, i) &&
    (exists k :: 0 <= k < |alts| && alts[k] == p && (forall j :: 0 <= j < k ==> !Qualifies(s, alts[j], i))) &&
    (forall j: nat, q :: j < i && q in alts ==> !Qualifies(s, q, j)) &&
    id == Capture(s, i + |p|)
  }

  /** `id` stands in `url` right after the literal `p` at position `i`, and the character after
      it is the end of `url` or one of `&`, `?`, `#`, newline. */
  ghost predicate FollowsPrefix(url: string, id: string, p: string, i: nat)
  {
    OccursAt(url, p, i) &&
    i + |p| + |id| <= |url| && url[i + |p|..i + |p| + |id|] == id &&
    (i + |p| + |id| == |url| || !Allowed(url[i + |p| + |id|]))
  }

  /** The capture taken after an alternative that matches is a non-empty, maximal run of
      allowed characters standing right after that alternative. */
  lemma CaptureShape(s: string, p: string, i: nat)
    requires Qualifies(s, p, i)
    ensures IsVideoId(Capture(s, i + |p|))
    ensures FollowsPrefix(s, Capture(s, i + |p|), p, i)
  {
  }

  /** Capture group 1 of `s.match(pattern)` for the pattern made of the alternatives `alts`
      followed by `([^&\n?#]+)`, or `None` when it does not match. The pattern matches exactly
      when some alternative is followed by an allowed character; the capture is then the one
      taken at the leftmost such position, a well-formed ID standing right after that alternative. */
  function MatchGroup(s: string, alts: seq<string>): (r: Option<string>)
    ensures r.None? <==> !MatchesSomewhere(s, alts)
    ensures r.Some? ==> exists i: nat, p :: LeftmostCapture(s, alts, r.value, p, i)
    ensures r.Some? ==> IsVideoId(r.value) && exists i: nat, p :: p in alts && FollowsPrefix(s, r.value, p, i)
  {
    match SearchFrom(s, alts, 0)
    case None => None
    case Some((i, p)) =>
      CaptureShape(s, p, i);
      assert LeftmostCapture(s, alts, Capture(s, i + |p|), p, i);
      Some(Capture(s, i + |p|))
  }

  /** The `for … of` loop over the pattern list: the capture of the first pattern that matches,
      or `None` when none matches. */
  function FirstMatch(s: string, patterns: seq<seq<string>>): (r: Option<string>)
    ensures r.None? <==> forall k :: 0 <= k < |patterns| ==> !MatchesSomewhere(s, patterns[k])
    ensures r.Some? ==> exists k :: FirstMatching(s, patterns, k) && MatchGroup(s, patterns[k]) == r
  {
    MatchFrom(s, patterns, 0)
  }

  /** Pattern `k` is the first of `patterns` that matches `s`. */
  ghost predicate FirstMatching(s: string, patterns: seq<seq<string>>, k: int)
  {
    0 <= k < |patterns| && MatchesSomewhere(s, patterns[k]) &&
    forall j :: 0 <= j < k ==> !MatchesSomewhere(s, patterns[j])
  }

  /** The loop from pattern `from` on, when every earlier pattern has failed. */
  function MatchFrom(s: string, patterns: seq<seq<string>>, from: nat): (r: Option<string>)
    requires from <= |patterns|
    requires forall j :: 0 <= j < from ==> !MatchesSomewhere(s, patterns[j])
    ensures r.None? <==> forall k :: from <= k < |patterns| ==> !MatchesSomewhere(s, patterns[k])
    ensures r.Some? ==> exists k :: FirstMatching(s, patterns, k) && MatchGroup(s, patterns[k]) == r
    decreases |patterns| - from
  {
    if from == |patterns| then None
    else match MatchGroup(s, patterns[from])
      case Some(id) =>
        assert FirstMatching(s, patterns, from);
        Some(id)
      case None =>
        MatchFrom(s, patterns, from + 1)
  }

  /** `extractVideoId(url)`. Pattern one decides whenever it matches anywhere in `url`, and the
      shorts pattern only otherwise. The result is null exactly when no occurrence of the four
      literals is followed by an allowed character. A returned ID is non-empty, free of `&`, `?`,
      `#` and newline, stands right after one of the four literals, and is maximal. */
  function ExtractVideoId(url: string): (r: Option<string>)
    ensures MatchesSomewhere(url, LinkPattern) ==> r == MatchGroup(url, LinkPattern)
    ensures !MatchesSomewhere(url, LinkPattern) ==> r == MatchGroup(url, ShortsPattern)
    ensures r.None? <==> forall i: nat, p :: p in AllPrefixes ==> !Qualifies(url, p, i)
    ensures r.Some? ==> IsVideoId(r.value)
    ensures r.Some? ==> exists i: nat, p :: p in AllPrefixes && FollowsPrefix(url, r.value, p, i)
  {
    assert Patterns[0] == LinkPattern && Patterns[1] == ShortsPattern;
    assert forall p :: p in AllPrefixes <==> p in LinkPattern || p in ShortsPattern;
    FirstMatch(url, Patterns)
  }

  /** Character `k` of the literal `p` found at `i` is the character of `s` at `i + k`. */
  lemma OccursAtChar(s: string, p: string, i: nat, k: nat)
    ensures OccursAt(s, p, i) && k < |p| ==> s[i + k] == p[k]
  {
  }

  /** No two of the four literals occur at the same position: they part at `youtu.be` against
      `youtube`, and at `watch`, `embed` and `shorts`. So at any position at most one alternative
      can match, and the order of the alternation never decides the result. */
  lemma PrefixesExclusive(s: string, i: nat, p: string, q: string)
    requires p in AllPrefixes && q in AllPrefixes
    requires OccursAt(s, p, i) && OccursAt(s, q, i)
    ensures p == q
  {
    if p != q {
      var k: nat := if p == ShortLinkPrefix || q == ShortLinkPrefix then 5 else 12;
      OccursAtChar(s, p, i, k);
      OccursAtChar(s, q, i, k);
    }
  }

  /** A short link with a query: the ID stops at `?`. */
  lemma ShortLinkExample(url: string)
    requires url == "https://youtu.be/abc?t=1"
    ensures ExtractVideoId(url) == Some("abc")
  {
    ShortLinkGroup(url);
  }

  /** In that example pattern one matches, first at the `youtu.be/` at position 8. */
  lemma ShortLinkGroup(url: string)
    requires url == "https://youtu.be/abc?t=1"
    ensures MatchesSomewhere(url, LinkPattern)
    ensures MatchGroup(url, LinkPattern) == Some("abc")
  {
    NoLinkInScheme(url);
    assert Qualifies(url, ShortLinkPrefix, 8);
    var m := MatchGroup(url, LinkPattern);
    var i: nat, p :| LeftmostCapture(url, LinkPattern, m.value, p, i);
    assert i == 8;
    PrefixesExclusive(url, 8, p, ShortLinkPrefix);
    ShortLinkCapture(url);
  }

  /** In that example no literal of pattern one starts inside `https://`. */
  lemma NoLinkInScheme(url: string)
    requires url == "https://youtu.be/abc?t=1"
    ensures forall j: nat, p :: j < 8 && p in LinkPattern ==> !Qualifies(url, p, j)
  {
    forall j: nat, p | j < 8 && p in LinkPattern ensures !Qualifies(url, p, j) {
      OccursAtChar(url, p, j, 0);
      assert p[0] == 'y' && url[j] != 'y';
    }
  }

  /** In that example the greedy capture after `youtu.be/` is `abc`, cut at the `?`. */
  lemma ShortLinkCapture(url: string)
    requires url == "https://youtu.be/abc?t=1"
    ensures Capture(url, 17) == "abc"
  {
    assert RunLength(url, 20) == 0;
    assert RunLength(url, 17) == 3;
    assert url[17..20] == "abc";
  }

}
