/** `get_channel_id_from_url`: the channel identifier in a YouTube URL, found by trying four
    patterns in order, each a literal prefix followed by a run of characters other than `/`
    and `?`. */
module ChannelUrl {
  import opened Wrappers

  /** The literal parts of the four patterns, in the order they are tried. */
  const Patterns: seq<string> := ["youtube.com/channel/", "youtube.com/c/", "youtube.com/user/", "youtube.com/@"]

  /** The character class `[^/?]`. */
  predicate IdChar(c: char)
  {
    c != '/' && c != '?'
  }

  /** The length of the longest run of identifier characters starting at `i`. */
  function IdRun(url: string, i: nat): (n: nat)
    requires i <= |url|
    ensures i + n <= |url|
    ensures forall k :: i <= k < i + n ==> IdChar(url[k])
    ensures i + n == |url| || !IdChar(url[i + n])
    decreases |url| - i
  {
    if i == |url| || !IdChar(url[i]) then 0 else 1 + IdRun(url, i + 1)
  }

  /** A run of identifier characters that stops at a non-identifier character or the end is
      the longest one. */
  lemma IdRunUnique(url: string, i: nat, n: nat)
    requires i + n <= |url|
    requires forall k :: i <= k < i + n ==> IdChar(url[k])
    requires i + n == |url| || !IdChar(url[i + n])
    ensures IdRun(url, i) == n
  {
  }

  /** The pattern matches at `i`: its prefix is there and at least one identifier character follows. */
  predicate MatchAt(url: string, prefix: string, i: nat)
  {
    i + |prefix| < |url| && url[i..i + |prefix|] == prefix && IdChar(url[i + |prefix|])
  }

  /** `re.search`: the position of the leftmost match at or after `from`. */
  function MatchFrom(url: string, prefix: string, from: nat): (r: Option<nat>)
    requires from <= |url|
    ensures r.None? ==> forall i :: from <= i <= |url| ==> !MatchAt(url, prefix, i)
    ensures r.Some? ==> from <= r.value < |url| && MatchAt(url, prefix, r.value)
    ensures r.Some? ==> forall j :: from <= j < r.value ==> !MatchAt(url, prefix, j)
    decreases |url| - from
  {
    if MatchAt(url, prefix, from) then Some(from)
    else if from == |url| then None
    else MatchFrom(url, prefix, from + 1)
  }

  /** The identifier a match at `i` captures: the greedy run after the prefix. */
  function Captured(url: string, prefix: string, i: nat): (id: string)
    requires MatchAt(url, prefix, i)
    ensures id != []
    ensures forall c :: c in id ==> IdChar(c)
    ensures i + |prefix| + |id| <= |url| && url[i + |prefix|..i + |prefix| + |id|] == id
    ensures i + |prefix| + |id| == |url| || !IdChar(url[i + |prefix| + |id|])
  {
    var start := i + |prefix|;
    var id := url[start..start + IdRun(url, start)];
    assert forall k :: 0 <= k < |id| ==> id[k] == url[start + k];
    id
  }

  /** The identifier `re.search(pattern, url).group(1)` yields, if the pattern matches. */
  function Search(url: string, prefix: string): (r: Option<string>)
    ensures r.None? <==> forall i :: 0 <= i <= |url| ==> !MatchAt(url, prefix, i)
    ensures r.Some? ==> r.value != [] && forall c :: c in r.value ==> IdChar(c)
    ensures r.Some? ==> MatchFrom(url, prefix, 0).Some? && r.value == Captured(url, prefix, MatchFrom(url, prefix, 0).value)
  {
    match MatchFrom(url, prefix, 0)
    case None => None
    case Some(i) => Some(Captured(url, prefix, i))
  }

  /** The index of the first pattern, in order, that matches anywhere. */
  function FirstPattern(url: string, k: nat): (r: Option<nat>)
    requires k <= |Patterns|
    ensures r.None? ==> forall j :: k <= j < |Patterns| ==> Search(url, Patterns[j]).None?
    ensures r.Some? ==> k <= r.value < |Patterns| && Search(url, Patterns[r.value]).Some?
    ensures r.Some? ==> forall j :: k <= j < r.value ==> Search(url, Patterns[j]).None?
    decreases |Patterns| - k
  {
    if k == |Patterns| then None
    else if Search(url, Patterns[k]).Some? then Some(k)
    else FirstPattern(url, k + 1)
  }

  /** The identifier of the first pattern that matches. */
  function Identifier(url: string): (r: Option<string>)
    ensures r.None? <==> forall j :: 0 <= j < |Patterns| ==> Search(url, Patterns[j]).None?
    ensures r.Some? ==> r.value != [] && forall c :: c in r.value ==> IdChar(c)
    ensures r.Some? ==> FirstPattern(url, 0).Some? && r == Search(url, Patterns[FirstPattern(url, 0).value])
  {
    match FirstPattern(url, 0)
    case None => None
    case Some(k) => Search(url, Patterns[k])
  }

  /** The identifier of a `/channel/` URL is the text after the prefix, up to the first `/`
      or `?` or the end: building such a URL and extracting from it gives the id back. */
  lemma ChannelPathRoundTrip(id: string, rest: string)
    requires id != [] && forall c :: c in id ==> IdChar(c)
    requires rest == [] || !IdChar(rest[0])
    ensures Identifier(Patterns[0] + id + rest) == Some(id)
  {
    var url := Patterns[0] + id + rest;
    ChannelPathMatches(id, rest);
    ChannelPathCaptures(id, rest);
    assert Search(url, Patterns[0]) == Some(id);
  }

  /** A `/channel/` URL matches the first pattern at its start. */
  lemma ChannelPathMatches(id: string, rest: string)
    requires id != [] && forall c :: c in id ==> IdChar(c)
    ensures MatchFrom(Patterns[0] + id + rest, Patterns[0], 0) == Some(0)
    ensures FirstPattern(Patterns[0] + id + rest, 0) == Some(0)
  {
    var url, p := Patterns[0] + id + rest, Patterns[0];
    assert url[..|p|] == p && url[|p|] == id[0];
    assert MatchAt(url, p, 0);
  }

  /** The capture of a `/channel/` URL at its start is the id. */
  lemma ChannelPathCaptures(id: string, rest: string)
    requires id != [] && forall c :: c in id ==> IdChar(c)
    requires rest == [] || !IdChar(rest[0])
    ensures MatchAt(Patterns[0] + id + rest, Patterns[0], 0)
    ensures Captured(Patterns[0] + id + rest, Patterns[0], 0) == id
  {
    var url, p := Patterns[0] + id + rest, Patterns[0];
    assert url[..|p|] == p && url[|p|] == id[0];
    assert forall k :: |p| <= k < |p| + |id| ==> url[k] == id[k - |p|];
    assert |p| + |id| == |url| || url[|p| + |id|] == rest[0];
    IdRunUnique(url, |p|, |id|);
    assert url[|p|..|p| + |id|] == id;
  }

  /** How a URL is resolved: an identifier starting with `UC` is the channel id itself; any other
      identifier is a name to look up; no match finds nothing. */
  datatype Resolution = Direct(channelId: string) | ByName(name: string) | NotFound

  function Classify(url: string): (r: Resolution)
    ensures r.NotFound? <==> Identifier(url).None?
    ensures r.Direct? ==> Identifier(url) == Some(r.channelId) && |r.channelId| >= 2 && r.channelId[..2] == "UC"
    ensures r.ByName? ==> Identifier(url) == Some(r.name) && !(|r.name| >= 2 && r.name[..2] == "UC")
  {
    match Identifier(url)
    case None => NotFound
    case Some(id) => if |id| >= 2 && id[..2] == "UC" then Direct(id) else ByName(id)
  }

  /** The resolved channel id. `lookup` stands for `get_channel_id_from_username`, the API call
      made only for identifiers that are not channel ids. */
  function ChannelIdFromUrl(url: string, lookup: string -> Option<string>): (r: Option<string>)
    ensures Classify(url).NotFound? ==> r == None
    ensures Classify(url).Direct? ==> r == Some(Classify(url).channelId)
    ensures Classify(url).ByName? ==> r == lookup(Classify(url).name)
  {
    match Classify(url)
    case Direct(id) => Some(id)
    case ByName(name) => lookup(name)
    case NotFound => None
  }

  /** A direct channel URL never reaches the lookup: any two lookups agree on it. */
  lemma DirectIgnoresLookup(url: string, l1: string -> Option<string>, l2: string -> Option<string>)
    requires Classify(url).Direct?
    ensures ChannelIdFromUrl(url, l1) == ChannelIdFromUrl(url, l2)
  {
  }

  /** A worked case: the `@` form yields its handle, to be looked up by name. */
  lemma HandleUrl()
    ensures Classify("youtube.com/@x") == ByName("x")
  {
    var url := "youtube.com/@x";
    assert MatchAt(url, Patterns[3], 0);
    assert IdRun(url, 14) == 0;
    assert url[13..14] == "x";
    assert IdRun(url, 13) == 1;
    forall j, i | 0 <= j < 3 && 0 <= i <= |url| ensures !MatchAt(url, Patterns[j], i) {
    }
  }
}
