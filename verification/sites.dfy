/**
 * The "open" command: the site name taken from the command
 * (voice_assistant.py:288-290) and the fixed table of known sites
 * (voice_assistant.py:128-143).
 */
module Sites {
  import opened Wrappers
  import opened Text

  /** The eight configured sites and their URLs. */
  const KnownSites: map<string, string> := map[
    "youtube" := "https://youtube.com",
    "google" := "https://google.com",
    "github" := "https://github.com",
    "stackoverflow" := "https://stackoverflow.com",
    "instagram" := "https://instagram.com",
    "facebook" := "https://facebook.com",
    "twitter" := "https://twitter.com",
    "whatsapp" := "https://www.whatsapp.com"
  ]

  const OpenTrigger := "open "

  /**
   * Every configured name is a non-empty lower-case word without blanks, so it
   * can be the site name of a command.
   */
  lemma SiteNamesAreWords()
    ensures forall name :: name in KnownSites ==> name != [] && NoSpace(name) && NoUpper(name)
  {
  }

  /**
   * `query.split("open ")[1].split()[0]`: the first whitespace-separated word of
   * the text between the first and the second "open ". `None` where Python raises
   * `IndexError` (no "open ", or nothing but blanks after it).
   */
  function SiteName(query: string): (r: Option<string>)
    ensures r.Some? ==> Contains(query, OpenTrigger) && r.value != [] && NoSpace(r.value)
    ensures Contains(query, OpenTrigger) ==> (r.None? <==> AllSpace(SecondPiece(query, OpenTrigger).value))
  {
    match SecondPiece(query, OpenTrigger)
    case None => None
    case Some(piece) => FirstToken(piece)
  }

  /**
   * The site name is the first word after the first "open ", provided no second
   * "open " starts before that word ends.
   */
  lemma SiteNameIsFirstWord(query: string, i: nat, pre: string, w: string, post: string)
    requires IndexOf(query, OpenTrigger) == Some(i)
    requires query[i + |OpenTrigger|..] == pre + w + post
    requires AllSpace(pre) && w != [] && NoSpace(w) && (post == [] || IsSpace(post[0]))
    requires forall j :: 0 <= j < |pre| + |w| ==> !OccursAt(pre + w + post, OpenTrigger, j)
    ensures SiteName(query) == Some(w)
  {
    SecondPieceSpec(query, OpenTrigger, i);
    var rest := PieceKeepsWord(pre + w + post, SecondPiece(query, OpenTrigger).value, pre, w, post);
    SiteNameOfPiece(query, pre, w, rest);
  }

  /** The site name of a command whose piece after "open " is blanks, a word, and a blank or nothing. */
  lemma SiteNameOfPiece(query: string, pre: string, w: string, rest: string)
    requires SecondPiece(query, OpenTrigger) == Some(pre + w + rest)
    requires AllSpace(pre) && w != [] && NoSpace(w) && (rest == [] || IsSpace(rest[0]))
    ensures SiteName(query) == Some(w)
  {
    FirstTokenOf(pre, w, rest);
  }

  /**
   * A prefix of `pre + w + post` that stops only at an "open " (or at the end),
   * where no "open " starts before `w` ends: it holds all of `pre + w`, and what
   * follows `w` in it starts with a blank, if anything.
   */
  lemma PieceKeepsWord(tail: string, piece: string, pre: string, w: string, post: string) returns (rest: string)
    requires tail == pre + w + post && (post == [] || IsSpace(post[0]))
    requires |piece| <= |tail| && piece == tail[..|piece|]
    requires piece == tail || OccursAt(tail, OpenTrigger, |piece|)
    requires forall j :: 0 <= j < |pre| + |w| ==> !OccursAt(tail, OpenTrigger, j)
    ensures piece == pre + w + rest && (rest == [] || IsSpace(rest[0]))
  {
    var m := |pre| + |w|;
    assert |piece| < m ==> OccursAt(tail, OpenTrigger, |piece|);
    rest := piece[m..];
    assert piece == pre + w + rest by {
      assert piece[..m] == tail[..m] == pre + w;
    }
    assert rest != [] ==> rest[0] == tail[m] == post[0];
  }

  /** Blanks, then a blank-free word, then a blank or the end: that word is the first token. */
  lemma FirstTokenOf(pre: string, w: string, rest: string)
    requires AllSpace(pre) && w != [] && NoSpace(w) && (rest == [] || IsSpace(rest[0]))
    ensures FirstToken(pre + w + rest) == Some(w)
  {
    var s := pre + w + rest;
    assert s == pre + (w + rest);
    LeadingSpaceOf(pre, w + rest);
    assert s[|pre|..] == w + rest;
    WordOf(w, rest);
  }

  /** Blanks followed by a non-blank: the leading blanks are exactly the blanks. */
  lemma {:induction false} LeadingSpaceOf(pre: string, rest: string)
    requires AllSpace(pre) && rest != [] && !IsSpace(rest[0])
    ensures LeadingSpace(pre + rest) == |pre|
  {
    if pre != [] {
      assert (pre + rest)[1..] == pre[1..] + rest;
      LeadingSpaceOf(pre[1..], rest);
    } else {
      assert pre + rest == rest;
    }
  }

  /** A blank-free word followed by a blank or the end is the first word. */
  lemma {:induction false} WordOf(w: string, rest: string)
    requires NoSpace(w) && (rest == [] || IsSpace(rest[0]))
    ensures Word(w + rest) == w
  {
    if w != [] {
      assert (w + rest)[1..] == w[1..] + rest;
      WordOf(w[1..], rest);
    } else {
      assert w + rest == rest;
    }
  }

  /** "open youtube" names the youtube site. */
  lemma OpenYoutubeName(query: string)
    requires query == "open youtube"
    ensures SiteName(query) == Some("youtube")
  {
    var w := "youtube";
    assert OpenTrigger <= query;
    assert IndexOf(query, OpenTrigger) == Some(0);
    assert query[5..] == [] + w + [];
    PlainWord(w);
    SiteNameIsFirstWord(query, 0, [], w, []);
  }

  /** A blank-free word without "open " in it. */
  lemma PlainWord(w: string)
    requires w == "youtube"
    ensures w != [] && NoSpace(w) && forall j :: !OccursAt([] + w + [], OpenTrigger, j)
  {
    assert [] + w + [] == w;
    MissingCharNotContained(w, OpenTrigger, ' ');
  }

  /** "open " with nothing after it has no site name: the source raises `IndexError` here. */
  lemma OpenWithoutName(query: string)
    requires query == "open "
    ensures SiteName(query) == None
  {
    assert query[0..5] == OpenTrigger;
    assert IndexOf(query, OpenTrigger) == Some(0);
    assert query[5..] == [];
  }

  /**
   * "open open youtube" has no site name either: the text between the first and
   * the second "open " is empty, so the lookup of the word after it fails.
   */
  lemma OpenTwice(query: string)
    requires query == "open open youtube"
    ensures SiteName(query) == None
  {
    assert query[0..5] == OpenTrigger;
    assert IndexOf(query, OpenTrigger) == Some(0);
    var tail := query[5..];
    assert tail[0..5] == OpenTrigger;
    assert IndexOf(tail, OpenTrigger) == Some(0);
    assert SecondPiece(query, OpenTrigger) == Some([]);
  }
}
