/** `YouTubeSentimentAnalyzer.clean_text`: a missing cell becomes the empty text; otherwise URLs,
    then HTML tags, then disallowed characters are deleted, and whitespace runs are collapsed. */
module TextCleaner {
  import opened Wrappers
  import Seqs

  /** The classes `\w` and `\s` of Python's `re` module on `str` patterns. `\s` is also what
      `str.split()` and `str.strip()` treat as whitespace. Both are Unicode tables, so the model
      keeps them abstract and states what it relies on in `Sane`. */
  datatype CharClasses = CharClasses(word: char -> bool, space: char -> bool)

  /** Facts that Python's classes satisfy and that the properties below rely on. */
  predicate Sane(cc: CharClasses)
  {
    && cc.space(' ') && cc.space('\t') && cc.space('\n') && cc.space('\r')
    && !cc.word('<') && !cc.space('<') && !cc.word('>') && !cc.space('>')
    && !cc.word(':') && !cc.space(':') && !cc.word('/') && !cc.space('/')
    && !cc.space('h') && !cc.space('t') && !cc.space('p') && !cc.space('s') && !cc.space('w')
  }

  /** The ASCII part of both classes, on which they agree with Python. */
  function Ascii(): (cc: CharClasses)
    ensures Sane(cc)
  {
    CharClasses(
      c => ('a' <= c <= 'z') || ('A' <= c <= 'Z') || ('0' <= c <= '9') || c == '_',
      c => c == ' ' || (9 <= c as int <= 13) || (28 <= c as int <= 31))
  }

  /** The punctuation kept by the character filter: `. , ! ? -`. */
  predicate IsPunct(c: char)
  {
    c == '.' || c == ',' || c == '!' || c == '?' || c == '-'
  }

  /** Length of the leading run of non-whitespace characters (what `\S+` consumes greedily). */
  function NonSpaceRun(cc: CharClasses, s: string): (n: nat)
    ensures n <= |s|
    ensures forall k :: 0 <= k < n ==> !cc.space(s[k])
    ensures n < |s| ==> cc.space(s[n])
  {
    if s == [] || cc.space(s[0]) then 0 else 1 + NonSpaceRun(cc, s[1..])
  }

  /** Length of the match of `http\S+|www\S+|https\S+` at the start of `s`, 0 when none matches:
      a match is the prefix followed by non-whitespace characters up to the first whitespace
      character or the end. The third alternative only matches where the first already does
      (`HttpsCovered`). */
  function UrlMatch(cc: CharClasses, s: string): (n: nat)
    ensures n <= |s|
    ensures n > 0 <==> (|s| > 4 && s[..4] == "http" && !cc.space(s[4]))
                       || (|s| > 3 && s[..3] == "www" && !cc.space(s[3]))
    ensures n > 0 ==> 4 <= n && forall k :: 4 <= k < n ==> !cc.space(s[k])
    ensures n > 0 ==> n == |s| || cc.space(s[n])
  {
    if |s| > 4 && s[..4] == "http" && !cc.space(s[4]) then 4 + NonSpaceRun(cc, s[4..])
    else if |s| > 3 && s[..3] == "www" && !cc.space(s[3]) then 3 + NonSpaceRun(cc, s[3..])
    else 0
  }

  /** A run that stops exactly at the first whitespace character is the maximal one. */
  lemma RunUnique(cc: CharClasses, s: string, n: nat)
    requires n <= |s|
    requires forall k :: 0 <= k < n ==> !cc.space(s[k])
    requires n == |s| || cc.space(s[n])
    ensures n == NonSpaceRun(cc, s)
  {
  }

  /** With Python's classes a URL match is the whole leading run of non-whitespace characters. */
  lemma UrlMatchIsRun(cc: CharClasses, s: string)
    requires Sane(cc)
    ensures UrlMatch(cc, s) > 0 ==> UrlMatch(cc, s) == NonSpaceRun(cc, s)
  {
    var n := UrlMatch(cc, s);
    if n > 0 {
      var h, t, p, w := 'h', 't', 'p', 'w';
      assert !cc.space(h) && !cc.space(t) && !cc.space(p) && !cc.space(w);
      if |s| > 4 && s[..4] == "http" {
        assert s[0] == s[..4][0] == h && s[1] == s[..4][1] == t;
        assert s[2] == s[..4][2] == t && s[3] == s[..4][3] == p;
      } else {
        assert s[..3] == "www";
        assert s[0] == s[..3][0] == w && s[1] == s[..3][1] == w && s[2] == s[..3][2] == w;
      }
      RunUnique(cc, s, n);
    }
  }

  /** Where `https\S+` matches, `http\S+` already matches the same text, since `s` is not
      whitespace. */
  lemma HttpsCovered(cc: CharClasses, s: string)
    requires Sane(cc)
    requires |s| > 5 && s[..5] == "https" && !cc.space(s[5])
    ensures UrlMatch(cc, s) == 5 + NonSpaceRun(cc, s[5..])
  {
    assert s[..4] == "http" && s[4] == 's';
    var n := UrlMatch(cc, s);
    var m := NonSpaceRun(cc, s[5..]);
    assert forall k :: 5 <= k < 5 + m ==> s[k] == s[5..][k - 5];
    RunUnique(cc, s[4..], 1 + m);
    assert n == 4 + NonSpaceRun(cc, s[4..]);
  }

  /** `re.sub(r'http\S+|www\S+|https\S+', '', s)`: scan left to right, delete each match and
      resume after it, keep any other character. */
  function StripUrls(cc: CharClasses, s: string): (r: string)
    ensures |r| <= |s|
    decreases |s|
  {
    if s == [] then []
    else
      var n := UrlMatch(cc, s);
      if n > 0 then
        assert s == s[..n] + s[n..];
        StripUrls(cc, s[n..])
      else
        assert s == [s[0]] + s[1..];
        [s[0]] + StripUrls(cc, s[1..])
  }

  /** Where the lazy `<.*?>` opened at position 0 closes: the first `>` at or after `k`,
      provided no newline comes first (`.` does not match a newline). */
  function TagClose(s: string, k: nat): (r: Option<nat>)
    requires k <= |s|
    ensures r.Some? ==> k <= r.value < |s| && s[r.value] == '>'
    ensures r.Some? ==> forall j :: k <= j < r.value ==> s[j] != '>' && s[j] != '\n'
    ensures r.None? ==> forall j :: k <= j < |s| && s[j] == '>' ==> exists i :: k <= i < j && s[i] == '\n'
    decreases |s| - k
  {
    if k == |s| || s[k] == '\n' then None
    else if s[k] == '>' then Some(k)
    else TagClose(s, k + 1)
  }

  /** `re.sub(r'<.*?>', '', s)`. */
  function StripTags(s: string): (r: string)
    ensures |r| <= |s|
    decreases |s|
  {
    if s == [] then []
    else if s[0] == '<' && TagClose(s, 1).Some? then
      var e := TagClose(s, 1).value + 1;
      assert s == s[..e] + s[e..];
      StripTags(s[e..])
    else
      assert s == [s[0]] + s[1..];
      [s[0]] + StripTags(s[1..])
  }

  /** The complement of the class `[^\w\s.,!?-]`: the characters the filter keeps. */
  predicate Kept(cc: CharClasses, c: char)
  {
    cc.word(c) || cc.space(c) || IsPunct(c)
  }

  /** `re.sub(r'[^\w\s.,!?-]', '', s)`: keeps exactly the characters `Kept` admits, in order. */
  function FilterChars(cc: CharClasses, s: string): (r: string)
    ensures |r| <= |s|
    ensures forall i :: 0 <= i < |r| ==> Kept(cc, r[i])
  {
    if s == [] then []
    else
      assert s == [s[0]] + s[1..];
      var rest := FilterChars(cc, s[1..]);
      assert forall i :: 1 <= i < |s| ==> s[i] == s[1..][i - 1];
      if Kept(cc, s[0]) then [s[0]] + rest else rest
  }

  /** `s.split()`: the maximal runs of non-whitespace characters, in order. */
  function Split(cc: CharClasses, s: string): (ws: seq<string>)
    ensures forall i :: 0 <= i < |ws| ==> ws[i] != []
    ensures forall i, k :: 0 <= i < |ws| && 0 <= k < |ws[i]| ==> !cc.space(ws[i][k]) && ws[i][k] in s
    decreases |s|
  {
    if s == [] then []
    else if cc.space(s[0]) then Split(cc, s[1..])
    else
      var n := NonSpaceRun(cc, s);
      [s[..n]] + Split(cc, s[n..])
  }

  /** Text is blank, in the sense of `text.strip() == ''`, exactly when `split()` finds no word. */
  lemma {:induction false} SplitEmptyIffBlank(cc: CharClasses, s: string)
    ensures Split(cc, s) == [] <==> forall k :: 0 <= k < |s| ==> cc.space(s[k])
    decreases |s|
  {
    if s != [] && cc.space(s[0]) {
      SplitEmptyIffBlank(cc, s[1..]);
      assert forall k :: 1 <= k < |s| ==> s[k] == s[1..][k - 1];
    }
  }

  /** A word followed by whitespace or the end splits off as the first word. */
  lemma {:induction false} SplitWord(cc: CharClasses, w: string, t: string)
    requires w != [] && forall k :: 0 <= k < |w| ==> !cc.space(w[k])
    requires t == [] || cc.space(t[0])
    ensures Split(cc, w + t) == [w] + Split(cc, t)
  {
    var s := w + t;
    assert forall k :: 0 <= k < |w| ==> s[k] == w[k];
    RunUnique(cc, s, |w|);
    assert s[..|w|] == w && s[|w|..] == t;
  }

  /** Words of non-whitespace characters, none empty: what `split()` returns. */
  predicate IsWords(cc: CharClasses, ws: seq<string>)
  {
    forall i :: 0 <= i < |ws| ==> ws[i] != [] && forall k :: 0 <= k < |ws[i]| ==> !cc.space(ws[i][k])
  }

  /** Splitting words joined by single spaces gives the words back. */
  lemma {:induction false} SplitJoinWords(cc: CharClasses, ws: seq<string>)
    requires IsWords(cc, ws)
    ensures cc.space(' ') ==> Split(cc, Seqs.Join(ws, ' ')) == ws
  {
    if cc.space(' ') && |ws| == 1 {
      SplitWord(cc, ws[0], []);
      assert ws[0] + [] == ws[0];
    } else if cc.space(' ') && |ws| > 1 {
      var tail := ws[1..];
      assert IsWords(cc, tail) by {
        forall i | 0 <= i < |tail| ensures tail[i] == ws[i + 1] { }
      }
      SplitJoinWords(cc, tail);
      SplitJoinStep(cc, ws[0], tail);
      assert ws == [ws[0]] + tail;
    }
  }

  /** One step of `SplitJoinWords`: a word in front of joined words splits off. */
  lemma SplitJoinStep(cc: CharClasses, w: string, tail: seq<string>)
    requires cc.space(' ') && tail != []
    requires w != [] && forall k :: 0 <= k < |w| ==> !cc.space(w[k])
    requires Split(cc, Seqs.Join(tail, ' ')) == tail
    ensures Split(cc, Seqs.Join([w] + tail, ' ')) == [w] + tail
  {
    var t := Seqs.Join(tail, ' ');
    var u := [' '] + t;
    assert u[0] == ' ' && u[1..] == t;
    assert Split(cc, u) == Split(cc, t);
    SplitWord(cc, w, u);
    JoinCons(w, tail);
  }

  /** Joining a word in front of a non-empty list puts one space between them. */
  lemma JoinCons(w: string, tail: seq<string>)
    requires tail != []
    ensures Seqs.Join([w] + tail, ' ') == w + ([' '] + Seqs.Join(tail, ' '))
  {
    var ws := [w] + tail;
    assert |ws| > 1 && ws[0] == w && ws[1..] == tail;
    Seqs.AppendAssoc(w, [' '], Seqs.Join(tail, ' '));
  }

  /** `' '.join(s.split())`: the words of the text, each separated by a single space, so that
      splitting the result finds the same words. */
  function Collapse(cc: CharClasses, s: string): (r: string)
    ensures cc.space(' ') ==> Split(cc, r) == Split(cc, s)
  {
    var ws := Split(cc, s);
    assert IsWords(cc, ws);
    SplitJoinWords(cc, ws);
    Seqs.Join(ws, ' ')
  }

  /** Collapsing twice is collapsing once. */
  lemma CollapseIdempotent(cc: CharClasses, s: string)
    requires cc.space(' ')
    ensures Collapse(cc, Collapse(cc, s)) == Collapse(cc, s)
  {
  }

  /** `clean_text`: `None` stands for a null or NaN cell. */
  function Clean(cc: CharClasses, text: Option<string>): (r: string)
    ensures text == None || text == Some("") ==> r == ""
  {
    match text
    case None => ""
    case Some(s) =>
      if s == "" then "" else Collapse(cc, FilterChars(cc, StripTags(StripUrls(cc, s))))
  }

  /** Every whitespace character is a plain space that is neither first nor last and sits
      between two non-whitespace characters. */
  predicate Normalized(cc: CharClasses, r: string)
  {
    forall i :: 0 <= i < |r| && cc.space(r[i]) ==>
      r[i] == ' ' && 0 < i < |r| - 1 && !cc.space(r[i - 1]) && !cc.space(r[i + 1])
  }

  /** Joining whitespace-free, non-empty words with single spaces gives normalized text. */
  lemma {:induction false} JoinNormalized(cc: CharClasses, ws: seq<string>)
    requires forall i :: 0 <= i < |ws| ==> ws[i] != []
    requires forall i, k :: 0 <= i < |ws| && 0 <= k < |ws[i]| ==> !cc.space(ws[i][k])
    ensures Normalized(cc, Seqs.Join(ws, ' '))
  {
    if |ws| == 1 {
      assert Seqs.Join(ws, ' ') == ws[0];
    } else if |ws| > 1 {
      var w, t := ws[0], Seqs.Join(ws[1..], ' ');
      JoinNormalized(cc, ws[1..]);
      Seqs.JoinEnds(ws[1..], ' ');
      var r := Seqs.Join(ws, ' ');
      assert r == w + [' '] + t;
      assert forall i :: 0 <= i < |w| ==> r[i] == w[i] && !cc.space(r[i]);
      assert r[|w| + 1] == t[0] == ws[1..][0][0] && !cc.space(r[|w| + 1]);
      forall i | |w| <= i < |r| && cc.space(r[i])
        ensures r[i] == ' ' && 0 < i < |r| - 1 && !cc.space(r[i - 1]) && !cc.space(r[i + 1])
      {
        if i == |w| {
          assert r[i - 1] == ws[0][|w| - 1];
        } else {
          var j := i - |w| - 1;
          assert r[i] == t[j] && r[i - 1] == t[j - 1] && r[i + 1] == t[j + 1];
        }
      }
    }
  }

  /** Collapsing whitespace never lengthens the text. */
  lemma {:induction false} CollapseShorter(cc: CharClasses, s: string)
    ensures |Collapse(cc, s)| <= |s|
    decreases |s|
  {
    if s == [] {
    } else if cc.space(s[0]) {
      CollapseShorter(cc, s[1..]);
    } else {
      var n := NonSpaceRun(cc, s);
      var rest := s[n..];
      var ws := Split(cc, rest);
      assert Split(cc, s) == [s[..n]] + ws;
      if ws == [] {
        assert Collapse(cc, s) == s[..n];
      } else {
        assert rest != [] && cc.space(rest[0]);
        assert ws == Split(cc, rest[1..]);
        CollapseShorter(cc, rest[1..]);
        assert ([s[..n]] + ws)[1..] == ws;
        assert Collapse(cc, s) == s[..n] + [' '] + Collapse(cc, rest[1..]);
      }
    }
  }

  /** The collapsed text is normalized, and each of its characters is a plain space or a
      non-whitespace character of the input. */
  lemma CollapseShape(cc: CharClasses, s: string)
    ensures Normalized(cc, Collapse(cc, s))
    ensures forall i :: 0 <= i < |Collapse(cc, s)| ==>
      Collapse(cc, s)[i] == ' ' || (!cc.space(Collapse(cc, s)[i]) && Collapse(cc, s)[i] in s)
  {
    var ws := Split(cc, s);
    JoinNormalized(cc, ws);
    Seqs.JoinChars(ws, ' ');
    var r := Collapse(cc, s);
    forall i | 0 <= i < |r| && r[i] != ' '
      ensures !cc.space(r[i]) && r[i] in s
    {
      var j :| 0 <= j < |ws| && r[i] in ws[j];
      var k :| 0 <= k < |ws[j]| && ws[j][k] == r[i];
    }
  }

  /** `clean_text` never returns a longer text than it was given: every stage only deletes
      characters or shrinks whitespace runs. */
  lemma CleanShorter(cc: CharClasses, s: string)
    ensures |Clean(cc, Some(s))| <= |s|
  {
    if s != "" {
      var f := FilterChars(cc, StripTags(StripUrls(cc, s)));
      CollapseShorter(cc, f);
    }
  }

  /** A character that may appear in cleaned text: a plain space, or a non-whitespace word
      character or one of `. , ! ? -`. */
  predicate Allowed(cc: CharClasses, c: char)
  {
    c == ' ' || (!cc.space(c) && (cc.word(c) || IsPunct(c)))
  }

  /** Collapsing text that passed the character filter gives normalized text of allowed characters. */
  lemma CollapseFiltered(cc: CharClasses, f: string)
    requires forall i :: 0 <= i < |f| ==> Kept(cc, f[i])
    ensures Normalized(cc, Collapse(cc, f))
    ensures forall i :: 0 <= i < |Collapse(cc, f)| ==> Allowed(cc, Collapse(cc, f)[i])
  {
    CollapseShape(cc, f);
    var r := Collapse(cc, f);
    forall i | 0 <= i < |r| && r[i] != ' '
      ensures Allowed(cc, r[i])
    {
      var k :| 0 <= k < |f| && f[k] == r[i];
    }
  }

  /** Every character of the cleaned text is allowed; the text has no leading, trailing or
      doubled whitespace, and tabs and newlines have become plain spaces. */
  lemma CleanCharset(cc: CharClasses, text: Option<string>)
    ensures Normalized(cc, Clean(cc, text))
    ensures forall i :: 0 <= i < |Clean(cc, text)| ==> Allowed(cc, Clean(cc, text)[i])
  {
    if text.Some? && text.value != "" {
      CollapseFiltered(cc, FilterChars(cc, StripTags(StripUrls(cc, text.value))));
    }
  }

  /** In particular no `<`, `>`, `:` or `/` survives cleaning. */
  lemma CleanDropsMarkup(cc: CharClasses, text: Option<string>)
    requires Sane(cc)
    ensures var r := Clean(cc, text); '<' !in r && '>' !in r && ':' !in r && '/' !in r
  {
    CleanCharset(cc, text);
  }

  /** URL removal only deletes: no character is added or duplicated. */
  lemma {:induction false} StripUrlsDeletes(cc: CharClasses, s: string)
    ensures multiset(StripUrls(cc, s)) <= multiset(s)
    decreases |s|
  {
    if s != [] {
      var n := UrlMatch(cc, s);
      if n > 0 {
        StripUrlsDeletes(cc, s[n..]);
        assert s == s[..n] + s[n..];
      } else {
        StripUrlsDeletes(cc, s[1..]);
        assert s == [s[0]] + s[1..];
      }
    }
  }

  /** Tag removal only deletes: no character is added or duplicated. */
  lemma {:induction false} StripTagsDeletes(s: string)
    ensures multiset(StripTags(s)) <= multiset(s)
    decreases |s|
  {
    if s != [] {
      if s[0] == '<' && TagClose(s, 1).Some? {
        var e := TagClose(s, 1).value + 1;
        StripTagsDeletes(s[e..]);
        assert s == s[..e] + s[e..];
      } else {
        StripTagsDeletes(s[1..]);
        assert s == [s[0]] + s[1..];
      }
    }
  }

  /** The character filter only deletes: no character is added or duplicated. */
  lemma {:induction false} FilterDeletes(cc: CharClasses, s: string)
    ensures multiset(FilterChars(cc, s)) <= multiset(s)
  {
    if s != [] {
      FilterDeletes(cc, s[1..]);
      assert s == [s[0]] + s[1..];
    }
  }

  /** Text in which no URL match starts anywhere passes the URL stage unchanged. */
  lemma {:induction false} StripUrlsUnchanged(cc: CharClasses, s: string)
    requires forall k :: 0 <= k < |s| ==> UrlMatch(cc, s[k..]) == 0
    ensures StripUrls(cc, s) == s
  {
    if s != [] {
      assert s[0..] == s;
      assert UrlMatch(cc, s) == 0;
      var t := s[1..];
      forall k | 0 <= k < |t| ensures UrlMatch(cc, t[k..]) == 0 {
        assert t[k..] == s[k + 1..];
      }
      StripUrlsUnchanged(cc, t);
    }
  }

  /** Text without `<` passes the tag stage unchanged. */
  lemma {:induction false} StripTagsUnchanged(s: string)
    requires '<' !in s
    ensures StripTags(s) == s
  {
    if s != [] {
      StripTagsUnchanged(s[1..]);
    }
  }

  /** No URL match starts anywhere in `r`. */
  predicate NoUrl(cc: CharClasses, r: string)
  {
    forall k :: 0 <= k < |r| ==> UrlMatch(cc, r[k..]) == 0
  }

  /** An output whose leading run agrees with text that starts with whitespace has no run. */
  lemma FrontOfBlank(cc: CharClasses, u: string, r: string)
    requires u == [] || cc.space(u[0])
    requires NonSpaceRun(cc, r) <= |u| && r[..NonSpaceRun(cc, r)] == u[..NonSpaceRun(cc, r)]
    ensures NonSpaceRun(cc, r) == 0
  {
  }

  /** Prepending one character keeps the leading run of the output a prefix of the input. */
  lemma FrontCons(cc: CharClasses, c: char, t: string, u: string)
    requires NonSpaceRun(cc, t) <= |u| && t[..NonSpaceRun(cc, t)] == u[..NonSpaceRun(cc, t)]
    ensures var r, n := [c] + t, NonSpaceRun(cc, [c] + t); n <= 1 + |u| && r[..n] == ([c] + u)[..n]
  {
    var r := [c] + t;
    assert r[1..] == t;
    if !cc.space(c) {
      var m := NonSpaceRun(cc, t);
      assert NonSpaceRun(cc, r) == 1 + m;
      assert r[..1 + m] == [c] + t[..m];
      assert ([c] + u)[..1 + m] == [c] + u[..m];
    }
  }

  /** The leading non-whitespace run of the URL stage's output is a prefix of its input: a
      deleted match is followed by whitespace or the end, and a kept character is kept in
      place. */
  lemma {:induction false} StripUrlsFront(cc: CharClasses, s: string)
    ensures var r := StripUrls(cc, s); var n := NonSpaceRun(cc, r); n <= |s| && r[..n] == s[..n]
    decreases |s|
  {
    if s != [] {
      var n := UrlMatch(cc, s);
      if n > 0 {
        StripUrlsFront(cc, s[n..]);
        FrontOfBlank(cc, s[n..], StripUrls(cc, s[n..]));
      } else {
        StripUrlsFront(cc, s[1..]);
        FrontCons(cc, s[0], StripUrls(cc, s[1..]), s[1..]);
        assert s == [s[0]] + s[1..];
      }
    }
  }

  /** Where `t`'s leading run agrees with `u`, so does every shorter run of non-whitespace. */
  lemma RunPrefix(cc: CharClasses, t: string, u: string, j: nat)
    requires NonSpaceRun(cc, t) <= |u| && t[..NonSpaceRun(cc, t)] == u[..NonSpaceRun(cc, t)]
    requires j <= |t| && forall k :: 0 <= k < j ==> !cc.space(t[k])
    ensures j <= |u| && t[..j] == u[..j]
  {
    var m := NonSpaceRun(cc, t);
    assert j <= m;
    assert t[..j] == t[..m][..j] && u[..j] == u[..m][..j];
  }

  /** A URL match at the head of `[c] + t` is already one at the head of `[c] + u` when the
      leading run of `t` is a prefix of `u`. */
  lemma UrlMatchHead(cc: CharClasses, c: char, t: string, u: string)
    requires Sane(cc)
    requires NonSpaceRun(cc, t) <= |u| && t[..NonSpaceRun(cc, t)] == u[..NonSpaceRun(cc, t)]
    ensures UrlMatch(cc, [c] + t) > 0 ==> UrlMatch(cc, [c] + u) > 0
  {
    var r := [c] + t;
    if UrlMatch(cc, r) > 0 {
      if |r| > 4 && r[..4] == "http" && !cc.space(r[4]) {
        HttpHead(cc, c, t, u);
      } else {
        WwwHead(cc, c, t, u);
      }
    }
  }

  /** The `http` case of `UrlMatchHead`: `ttp` and the character after it lie in `t`'s run. */
  lemma HttpHead(cc: CharClasses, c: char, t: string, u: string)
    requires Sane(cc)
    requires NonSpaceRun(cc, t) <= |u| && t[..NonSpaceRun(cc, t)] == u[..NonSpaceRun(cc, t)]
    requires |t| > 3 && ([c] + t)[..4] == "http" && !cc.space(t[3])
    ensures UrlMatch(cc, [c] + u) > 0
  {
    var r, s := [c] + t, [c] + u;
    var tt, p := 't', 'p';
    assert !cc.space(tt) && !cc.space(p);
    assert t[0] == r[1] == tt && t[1] == r[2] == tt && t[2] == r[3] == p;
    RunPrefix(cc, t, u, 4);
    assert r[..5] == s[..5];
  }

  /** The `www` case of `UrlMatchHead`: `ww` and the character after it lie in `t`'s run. */
  lemma WwwHead(cc: CharClasses, c: char, t: string, u: string)
    requires Sane(cc)
    requires NonSpaceRun(cc, t) <= |u| && t[..NonSpaceRun(cc, t)] == u[..NonSpaceRun(cc, t)]
    requires |t| > 2 && ([c] + t)[..3] == "www" && !cc.space(t[2])
    ensures UrlMatch(cc, [c] + u) > 0
  {
    var r, s := [c] + t, [c] + u;
    var w := 'w';
    assert !cc.space(w);
    assert t[0] == r[1] == w && t[1] == r[2] == w;
    RunPrefix(cc, t, u, 3);
    assert r[..4] == s[..4];
  }

  /** The URL stage leaves no URL behind: every match is deleted up to the whitespace after
      it, and no kept character starts a new one. */
  lemma {:induction false} StripUrlsLeavesNoUrl(cc: CharClasses, s: string)
    requires Sane(cc)
    ensures NoUrl(cc, StripUrls(cc, s))
    decreases |s|
  {
    if s != [] {
      var n := UrlMatch(cc, s);
      if n > 0 {
        StripUrlsLeavesNoUrl(cc, s[n..]);
      } else {
        var t := StripUrls(cc, s[1..]);
        StripUrlsLeavesNoUrl(cc, s[1..]);
        StripUrlsFront(cc, s[1..]);
        var r := [s[0]] + t;
        forall k | 0 <= k < |r| ensures UrlMatch(cc, r[k..]) == 0 {
          if k > 0 {
            assert r[k..] == t[k - 1..];
          } else {
            assert s == [s[0]] + s[1..];
            UrlMatchHead(cc, s[0], t, s[1..]);
          }
        }
      }
    }
  }

  /** Where the URL stage first deletes: text before the leftmost match, at `i` and of length
      `n`, is kept, the match is dropped, and the scan resumes after it. */
  lemma StripUrlsFirstMatch(cc: CharClasses, s: string, i: nat, n: nat)
    requires i < |s| && n == UrlMatch(cc, s[i..]) > 0
    requires forall k :: 0 <= k < i ==> UrlMatch(cc, s[k..]) == 0
    ensures StripUrls(cc, s) == s[..i] + StripUrls(cc, s[i + n..])
  {
    StripUrlsFrom(cc, s, 0, i, n);
    assert s[0..] == s && s[0..i] == s[..i];
  }

  /** The scan from `k` keeps `s[k..i]` and then drops the match at `i`. */
  lemma {:induction false} StripUrlsFrom(cc: CharClasses, s: string, k: nat, i: nat, n: nat)
    requires k <= i < |s| && n == UrlMatch(cc, s[i..]) > 0
    requires forall j :: k <= j < i ==> UrlMatch(cc, s[j..]) == 0
    ensures StripUrls(cc, s[k..]) == s[k..i] + StripUrls(cc, s[i + n..])
    decreases i - k
  {
    if k == i {
      StripUrlsSkip(cc, s[i..], n);
      assert s[i..][n..] == s[i + n..];
      assert s[i..][..0] == s[k..i];
    } else {
      StripUrlsFrom(cc, s, k + 1, i, n);
      StripUrlsKeep(cc, s[k..]);
      assert s[k..][1..] == s[k + 1..];
      ConsSlice(s, k, i, StripUrls(cc, s[i + n..]));
    }
  }

  /** `s[k..i]` is `s[k]` followed by `s[k + 1..i]`. */
  lemma ConsSlice(s: string, k: nat, i: nat, rest: string)
    requires k < i <= |s|
    ensures s[k..i] + rest == [s[k]] + (s[k + 1..i] + rest)
  {
    assert s[k..i] == [s[k]] + s[k + 1..i];
  }

  /** A match at the start is dropped whole. */
  lemma StripUrlsSkip(cc: CharClasses, s: string, n: nat)
    requires n == UrlMatch(cc, s) > 0
    ensures StripUrls(cc, s) == s[..0] + StripUrls(cc, s[n..])
  {
    assert s[..0] == [];
  }

  /** A character at which no match starts is kept. */
  lemma StripUrlsKeep(cc: CharClasses, s: string)
    requires s != [] && UrlMatch(cc, s) == 0
    ensures StripUrls(cc, s) == [s[0]] + StripUrls(cc, s[1..])
  {
  }

  /** The tag stage leaves no tag behind: from every kept `<`, a newline comes before any `>`. */
  predicate NoTag(r: string)
  {
    forall k :: 0 <= k < |r| && r[k] == '<' ==> TagClose(r[k..], 1).None?
  }

  /** Looking for the close from `k + 1` in `s` is looking from `k` in `s[1..]`. */
  lemma {:induction false} TagCloseShift(s: string, k: nat)
    requires s != [] && k < |s|
    ensures TagClose(s, k + 1).None? <==> TagClose(s[1..], k).None?
    decreases |s| - k
  {
    if k + 1 < |s| {
      assert s[k + 1] == s[1..][k];
      TagCloseShift(s, k + 1);
    }
  }

  /** Text in which a newline comes before any `>` keeps that property through the tag stage:
      the stage never deletes a newline. */
  lemma {:induction false} StripTagsGuarded(s: string)
    requires TagClose(s, 0).None?
    ensures TagClose(StripTags(s), 0).None?
    decreases |s|
  {
    if s != [] && s[0] != '\n' {
      if s[0] == '<' && TagClose(s, 1).Some? {
        assert false;
      } else {
        var r := StripTags(s);
        assert r == [s[0]] + StripTags(s[1..]);
        TagCloseShift(s, 0);
        StripTagsGuarded(s[1..]);
        assert r[1..] == StripTags(s[1..]);
        TagCloseShift(r, 0);
      }
    }
  }

  /** The tag stage leaves no tag behind. */
  lemma {:induction false} StripTagsLeavesNoTag(s: string)
    ensures NoTag(StripTags(s))
    decreases |s|
  {
    if s != [] {
      if s[0] == '<' && TagClose(s, 1).Some? {
        var e := TagClose(s, 1).value + 1;
        StripTagsLeavesNoTag(s[e..]);
      } else {
        var t := StripTags(s[1..]);
        StripTagsLeavesNoTag(s[1..]);
        var r := [s[0]] + t;
        assert r[1..] == t;
        forall k | 0 <= k < |r| && r[k] == '<' ensures TagClose(r[k..], 1).None? {
          if k > 0 {
            assert r[k..] == t[k - 1..];
          } else {
            assert r[0..] == r;
            TagCloseShift(s, 0);
            StripTagsGuarded(s[1..]);
            TagCloseShift(r, 0);
          }
        }
      }
    }
  }

  /** Where the tag stage first deletes: text before the first `<` that closes, at `i`, is
      kept, the tag up to its `>` at `i + c` is dropped, and the scan resumes after it. */
  lemma StripTagsFirstTag(s: string, i: nat, c: nat)
    requires i < |s| && s[i] == '<' && TagClose(s[i..], 1) == Some(c)
    requires forall k :: 0 <= k < i && s[k] == '<' ==> TagClose(s[k..], 1).None?
    ensures StripTags(s) == s[..i] + StripTags(s[i + c + 1..])
  {
    StripTagsFrom(s, 0, i, c);
    assert s[0..] == s && s[0..i] == s[..i];
  }

  /** The scan from `k` keeps `s[k..i]` and then drops the tag at `i`. */
  lemma {:induction false} StripTagsFrom(s: string, k: nat, i: nat, c: nat)
    requires k <= i < |s| && s[i] == '<' && TagClose(s[i..], 1) == Some(c)
    requires forall j :: k <= j < i && s[j] == '<' ==> TagClose(s[j..], 1).None?
    ensures StripTags(s[k..]) == s[k..i] + StripTags(s[i + c + 1..])
    decreases i - k
  {
    if k == i {
      StripTagsSkip(s[i..], c);
      assert s[i..][c + 1..] == s[i + c + 1..];
      assert s[k..i] == [];
    } else {
      StripTagsFrom(s, k + 1, i, c);
      StripTagsKeep(s[k..]);
      assert s[k..][1..] == s[k + 1..];
      ConsSlice(s, k, i, StripTags(s[i + c + 1..]));
    }
  }

  /** A tag at the start is dropped through its `>`. */
  lemma StripTagsSkip(s: string, c: nat)
    requires s != [] && s[0] == '<' && TagClose(s, 1) == Some(c)
    ensures StripTags(s) == StripTags(s[c + 1..])
  {
  }

  /** A character that does not open a closing tag is kept. */
  lemma StripTagsKeep(s: string)
    requires s != [] && !(s[0] == '<' && TagClose(s, 1).Some?)
    ensures StripTags(s) == [s[0]] + StripTags(s[1..])
  {
  }

  /** The character filter works character by character, so it distributes over concatenation. */
  lemma {:induction false} FilterAppend(cc: CharClasses, a: string, b: string)
    ensures FilterChars(cc, a + b) == FilterChars(cc, a) + FilterChars(cc, b)
  {
    if a != [] {
      assert (a + b)[1..] == a[1..] + b;
      FilterAppend(cc, a[1..], b);
    } else {
      assert a + b == b;
    }
  }

  /** Cleaning composes its four stages. */
  lemma CleanStages(cc: CharClasses, s: string, urls: string, tags: string, kept: string, r: string)
    requires s != "" && StripUrls(cc, s) == urls && StripTags(urls) == tags
    requires FilterChars(cc, tags) == kept && Collapse(cc, kept) == r
    ensures Clean(cc, Some(s)) == r
  {
  }

  // The stages on the sample "ww:wx", one small step each.

  lemma UrlsOfSample()
    ensures StripUrls(Ascii(), "ww:wx") == "ww:wx"
  {
    var cc, s := Ascii(), "ww:wx";
    assert s[0..][..3] == "ww:" && s[1..][..3] == "w:w";
    assert s[2..] == ":wx" && s[3..] == "wx" && s[4..] == "x";
    assert UrlMatch(cc, s[0..]) == 0 && UrlMatch(cc, s[1..]) == 0;
    assert |s[2..]| == 3 && |s[3..]| == 2 && |s[4..]| == 1;
    assert UrlMatch(cc, s[2..]) == 0 && UrlMatch(cc, s[3..]) == 0 && UrlMatch(cc, s[4..]) == 0;
    StripUrlsUnchanged(cc, s);
  }

  lemma FilterOne(cc: CharClasses, c: char)
    ensures FilterChars(cc, [c]) == if Kept(cc, c) then [c] else []
  {
    assert [c][1..] == [];
  }

  lemma FilterOfSample()
    ensures FilterChars(Ascii(), "ww:wx") == "wwwx"
  {
    var cc := Ascii();
    FilterOne(cc, 'w');
    FilterOne(cc, ':');
    FilterOne(cc, 'x');
    assert FilterChars(cc, "x") == "x";
    assert FilterChars(cc, ":") == "";
    assert FilterChars(cc, "w") == "w";
    FilterAppend(cc, "w", "x");
    assert "w" + "x" == "wx";
    FilterAppend(cc, ":", "wx");
    assert ":" + "wx" == ":wx";
    FilterAppend(cc, "w", ":wx");
    assert "w" + ":wx" == "w:wx";
    FilterAppend(cc, "w", "w:wx");
    assert "w" + "w:wx" == "ww:wx";
  }

  lemma CollapseOfSample()
    ensures Collapse(Ascii(), "wwwx") == "wwwx"
  {
    var cc := Ascii();
    assert "wwwx"[1..] == "wwx" && "wwx"[1..] == "wx" && "wx"[1..] == "x";
    assert NonSpaceRun(cc, "x") == 1;
    assert NonSpaceRun(cc, "wx") == 2;
    assert NonSpaceRun(cc, "wwx") == 3;
    assert NonSpaceRun(cc, "wwwx") == 4;
    assert "wwwx"[..4] == "wwwx" && "wwwx"[4..] == [];
    assert Split(cc, "wwwx") == ["wwwx"];
  }

  lemma UrlsOfCleanedSample()
    ensures StripUrls(Ascii(), "wwwx") == ""
  {
    var cc := Ascii();
    assert "wwwx"[..3] == "www" && "wwwx"[3..] == "x";
    assert NonSpaceRun(cc, "x") == 1;
    assert UrlMatch(cc, "wwwx") == 4;
    assert "wwwx"[4..] == [];
  }

  lemma CleanSample()
    ensures Clean(Ascii(), Some("ww:wx")) == "wwwx"
  {
    var cc := Ascii();
    UrlsOfSample();
    StripTagsUnchanged("ww:wx");
    FilterOfSample();
    CollapseOfSample();
    CleanStages(cc, "ww:wx", "ww:wx", "ww:wx", "wwwx", "wwwx");
  }

  lemma CleanCleanedSample()
    ensures Clean(Ascii(), Some("wwwx")) == ""
  {
    var cc := Ascii();
    UrlsOfCleanedSample();
    assert StripTags("") == "" && FilterChars(cc, "") == "" && Split(cc, "") == [];
    CleanStages(cc, "wwwx", "", "", "", "");
  }

  /** Cleaning is not idempotent: deleting `:` from "ww:wx" joins the letters `www` into a URL
      that a second pass deletes. */
  lemma CleanNotIdempotent()
    ensures Clean(Ascii(), Some("ww:wx")) == "wwwx"
    ensures Clean(Ascii(), Some(Clean(Ascii(), Some("ww:wx")))) == ""
  {
    CleanSample();
    CleanCleanedSample();
  }
}
