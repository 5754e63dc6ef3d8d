/** The keyword tagger (course_discovery/jobs/tagging.py:21-31) and a text on which its topics go stale unnoticed. */
module Keywords {
  import opened Text
  import opened Tagging
  import opened TaggingRuns

  const MAX_TOPICS := 5

  function Lower(c: char): char {
    if 'A' <= c <= 'Z' then ((c as int) + 32) as char else c
  }

  function Spaced(c: char): char { if c == '-' then ' ' else c }

  /** Lower case, hyphens read as spaces. */
  function Plain(s: string): (r: string)
    ensures |r| == |s| && forall i :: 0 <= i < |s| ==> r[i] == Spaced(Lower(s[i]))
  {
    if s == "" then "" else [Spaced(Lower(s[0]))] + Plain(s[1..])
  }

  function Pattern(topic: string): (r: string)
    ensures |r| == |topic| && forall i :: 0 <= i < |topic| ==> r[i] == Spaced(topic[i])
  {
    if topic == "" then "" else [Spaced(topic[0])] + Pattern(topic[1..])
  }

  predicate IsWord(c: char) { 'a' <= c <= 'z' || 'A' <= c <= 'Z' || '0' <= c <= '9' || c == '_' }

  /** Between a word character and none. */
  predicate Boundary(text: string, i: nat) {
    i <= |text| && (i > 0 && IsWord(text[i - 1])) != (i < |text| && IsWord(text[i]))
  }

  predicate At(pattern: string, text: string, i: nat) {
    i + |pattern| <= |text| && text[i..i + |pattern|] == pattern
    && Boundary(text, i) && Boundary(text, i + |pattern|)
  }

  predicate Found(pattern: string, text: string) {
    exists i: nat :: i <= |text| && At(pattern, text, i)
  }

  function FoundTopics(vocabulary: seq<string>, text: string): (r: seq<string>)
    ensures forall topic :: topic in r <==> topic in vocabulary && Found(Pattern(topic), text)
    decreases |vocabulary|
  {
    if vocabulary == [] then []
    else
      var n := |vocabulary| - 1;
      assert vocabulary == vocabulary[..n] + [vocabulary[n]];
      FoundTopics(vocabulary[..n], text) + (if Found(Pattern(vocabulary[n]), text) then [vocabulary[n]] else [])
  }

  function FirstTopics(topics: seq<string>): seq<string> {
    if |topics| <= MAX_TOPICS then topics else topics[..MAX_TOPICS]
  }

  function KeywordTags(vocabulary: seq<string>, title: string, description: string): seq<string> {
    FirstTopics(FoundTopics(vocabulary, Plain(title + " " + description)))
  }

  function KeywordTagger(vocabulary: seq<string>): Tagger {
    Tagger((title, description) => KeywordTags(vocabulary, title, description), set topic | topic in vocabulary)
  }

  // ----- what the tagger finds -----

  /** No word of the text runs on before position `i` or behind the `n` characters from there. */
  predicate WholeWords(text: string, i: nat, n: nat) {
    i + n <= |text|
    && (i == 0 || !IsWord(text[i - 1])) && (i + n == |text| || !IsWord(text[i + n]))
  }

  /** The words stand somewhere in the text. */
  ghost predicate Occurs(words: string, text: string) {
    exists i: nat :: i + |words| <= |text| && text[i..i + |words|] == words && WholeWords(text, i, |words|)
  }

  lemma AtIs(pattern: string, text: string, i: nat)
    requires pattern != "" && IsWord(pattern[0]) && IsWord(pattern[|pattern| - 1])
    ensures At(pattern, text, i) <==>
              i + |pattern| <= |text| && text[i..i + |pattern|] == pattern && WholeWords(text, i, |pattern|)
  {
    if i + |pattern| <= |text| && text[i..i + |pattern|] == pattern {
      assert text[i] == pattern[0] && text[i + |pattern| - 1] == pattern[|pattern| - 1];
    }
  }

  lemma FoundIs(pattern: string, text: string)
    requires pattern != "" && IsWord(pattern[0]) && IsWord(pattern[|pattern| - 1])
    ensures Found(pattern, text) <==> Occurs(pattern, text)
  {
    if Found(pattern, text) {
      var i: nat :| i <= |text| && At(pattern, text, i);
      AtIs(pattern, text, i);
    }
    if Occurs(pattern, text) {
      var i: nat :| i + |pattern| <= |text| && text[i..i + |pattern|] == pattern && WholeWords(text, i, |pattern|);
      AtIs(pattern, text, i);
    }
  }

  /** Capitals are read as small letters and hyphens as spaces; every other character stands for itself. */
  lemma PlainIs(s: string, i: nat)
    requires i < |s|
    ensures |Plain(s)| == |s|
    ensures 'A' <= s[i] <= 'Z' ==> Plain(s)[i] as int == s[i] as int - 'A' as int + 'a' as int
    ensures s[i] == '-' ==> Plain(s)[i] == ' '
    ensures s[i] != '-' && !('A' <= s[i] <= 'Z') ==> Plain(s)[i] == s[i]
  {
  }

  /**
   * At most five tags; each is a topic of the vocabulary whose words stand in the text of title and description, and as
   * long as there are no more than five of these, all of them are tags.
   */
  lemma TagsExactly(vocabulary: seq<string>, title: string, description: string, topic: string)
    requires topic != "" && IsWord(topic[0]) && IsWord(topic[|topic| - 1])
    ensures var tags := KeywordTags(vocabulary, title, description);
            var found := FoundTopics(vocabulary, Plain(title + " " + description));
            |tags| <= 5 && tags <= found && (|found| <= 5 ==> tags == found)
            && (topic in found <==>
                  topic in vocabulary && Occurs(Pattern(topic), Plain(title + " " + description)))
  {
    FoundIs(Pattern(topic), Plain(title + " " + description));
  }

  // ----- a topic of two words, broken over two lines -----

  /** A nonempty word of lower-case letters. */
  predicate Word(s: string) {
    s != "" && forall i :: 0 <= i < |s| ==> 'a' <= s[i] <= 'z'
  }

  /** Title `x` and description `p` newline `q`. */
  function BrokenText(x: string, p: string, q: string): string { x + " " + p + "\n" + q }

  /** Title `x` newline `p` and description `q`. */
  function MovedText(x: string, p: string, q: string): string { x + "\n" + p + " " + q }

  lemma PlainAlready(s: string)
    requires forall i :: 0 <= i < |s| ==> 'a' <= s[i] <= 'z' || s[i] == ' ' || s[i] == '\n'
    ensures Plain(s) == s
  {
  }

  lemma PatternOf(p: string, q: string)
    requires Word(p) && Word(q)
    ensures Pattern(p + "-" + q) == p + " " + q
  {
  }

  lemma BrokenChars(x: string, p: string, q: string, i: nat)
    requires Word(x) && Word(p) && Word(q) && i < |BrokenText(x, p, q)|
    ensures BrokenText(x, p, q)[i] == ' ' <==> i == |x|
    ensures var c := BrokenText(x, p, q)[i]; 'a' <= c <= 'z' || c == ' ' || c == '\n'
  {
  }

  lemma NotAt(pattern: string, text: string, i: nat, k: nat)
    requires k < |pattern| && (i + |pattern| <= |text| ==> text[i + k] != pattern[k])
    ensures !At(pattern, text, i)
  {
    if i + |pattern| <= |text| { assert text[i..i + |pattern|][k] == text[i + k]; }
  }

  lemma BrokenIsNotFound(x: string, p: string, q: string)
    requires Word(x) && Word(p) && Word(q) && |x| < |p|
    ensures !Found(p + " " + q, BrokenText(x, p, q))
  {
    var pattern, text := p + " " + q, BrokenText(x, p, q);
    assert pattern[|p|] == ' ';
    forall i: nat | i <= |text| ensures !At(pattern, text, i) {
      if i + |pattern| <= |text| { BrokenChars(x, p, q, i + |p|); }
      NotAt(pattern, text, i, |p|);
    }
  }

  lemma MovedIsFound(x: string, p: string, q: string)
    requires Word(x) && Word(p) && Word(q)
    ensures Found(p + " " + q, MovedText(x, p, q))
  {
    var pattern, text := p + " " + q, MovedText(x, p, q);
    var i := |x| + 1;
    assert text[i..] == pattern && text[i..i + |pattern|] == pattern;
    assert text[i - 1] == '\n' && text[i] == p[0] && text[|text| - 1] == q[|q| - 1];
    assert At(pattern, text, i);
  }

  lemma MovedChars(x: string, p: string, q: string, i: nat)
    requires Word(x) && Word(p) && Word(q) && i < |MovedText(x, p, q)|
    ensures var c := MovedText(x, p, q)[i]; 'a' <= c <= 'z' || c == ' ' || c == '\n'
  {
  }

  lemma BothPlain(x: string, p: string, q: string)
    requires Word(x) && Word(p) && Word(q)
    ensures Plain(BrokenText(x, p, q)) == BrokenText(x, p, q) && Plain(MovedText(x, p, q)) == MovedText(x, p, q)
  {
    forall i: nat | i < |BrokenText(x, p, q)|
      ensures var c := BrokenText(x, p, q)[i]; 'a' <= c <= 'z' || c == ' ' || c == '\n'
    {
      BrokenChars(x, p, q, i);
    }
    PlainAlready(BrokenText(x, p, q));
    forall i: nat | i < |MovedText(x, p, q)|
      ensures var c := MovedText(x, p, q)[i]; 'a' <= c <= 'z' || c == ' ' || c == '\n'
    {
      MovedChars(x, p, q, i);
    }
    PlainAlready(MovedText(x, p, q));
  }

  /** The topic has a letter that the text has not. */
  predicate Foreign(topic: string, text: string) {
    exists i :: 0 <= i < |topic| && topic[i] != '-' && topic[i] !in text
  }

  lemma ForeignIsNotFound(topic: string, text: string)
    requires Foreign(topic, text)
    ensures !Found(Pattern(topic), text)
  {
    var i :| 0 <= i < |topic| && topic[i] != '-' && topic[i] !in text;
    forall j: nat | j <= |text| ensures !At(Pattern(topic), text, j) {
      NotAt(Pattern(topic), text, j, i);
    }
  }

  ghost predicate OthersForeign(vocabulary: seq<string>, topic: string, text: string) {
    forall other :: other in vocabulary && other != topic ==> Foreign(other, text)
  }

  lemma OnlyTopic(vocabulary: seq<string>, topic: string, text: string)
    requires topic in vocabulary && Found(Pattern(topic), text) && OthersForeign(vocabulary, topic, text)
    ensures topic in FirstTopics(FoundTopics(vocabulary, text))
  {
    var found := FoundTopics(vocabulary, text);
    forall other | other in found ensures other == topic {
      if other != topic { ForeignIsNotFound(other, text); }
    }
    assert topic in found;
    assert found[0] in found;
    assert FirstTopics(found)[0] == found[0];
  }

  lemma BrokenTags(vocabulary: seq<string>, x: string, p: string, q: string)
    requires Word(x) && Word(p) && Word(q) && |x| < |p|
    ensures p + "-" + q !in KeywordTags(vocabulary, x, p + "\n" + q)
  {
    var text := BrokenText(x, p, q);
    assert x + " " + (p + "\n" + q) == text;
    BothPlain(x, p, q);
    PatternOf(p, q);
    BrokenIsNotFound(x, p, q);
    assert p + "-" + q !in FoundTopics(vocabulary, text);
  }

  lemma MovedTags(vocabulary: seq<string>, x: string, p: string, q: string)
    requires Word(x) && Word(p) && Word(q) && p + "-" + q in vocabulary
    requires OthersForeign(vocabulary, p + "-" + q, MovedText(x, p, q))
    ensures p + "-" + q in KeywordTags(vocabulary, x + "\n" + p, q)
  {
    var text := MovedText(x, p, q);
    assert x + "\n" + p + " " + q == text;
    BothPlain(x, p, q);
    PatternOf(p, q);
    MovedIsFound(x, p, q);
    OnlyTopic(vocabulary, p + "-" + q, text);
  }

  lemma TagsAllowed(vocabulary: seq<string>, title: string, description: string, topic: string)
    requires topic in vocabulary
    ensures topic in Topics(KeywordTagger(vocabulary), title, description)
            <==> topic in KeywordTags(vocabulary, title, description)
  {
  }

  /**
   * For every vocabulary with a topic of two words whose other topics each have a letter outside the text: a course
   * tagged with the two words on two lines of its description keeps lacking the topic when the first line moves to its
   * title, although the tagger would find it there, and the row counts as up to date.
   */
  lemma BrokenTopicStaysMissing(vocabulary: seq<string>, topic: string, x: string, p: string, q: string)
    returns (w: World)
    requires Word(x) && Word(p) && Word(q) && |x| < |p| && topic == p + "-" + q && topic in vocabulary
    requires OthersForeign(vocabulary, topic, MovedText(x, p, q))
    ensures Reachable(KeywordTagger(vocabulary), w) && 0 in w.rows && UpToDate(w.rows[0]) && !Eligible(w.rows[0])
    ensures w.rows[0].title == x + "\n" + p && w.rows[0].description == q
    ensures topic !in w.rows[0].topics
    ensures topic in Topics(KeywordTagger(vocabulary), w.rows[0].title, w.rows[0].description)
  {
    BrokenTags(vocabulary, x, p, q);
    MovedTags(vocabulary, x, p, q);
    assert x + "\n" + (p + "\n" + q) == (x + "\n" + p) + "\n" + q;
    w := TagsDiffer(vocabulary, topic, x, p + "\n" + q, x + "\n" + p, q);
  }

  lemma TagsDiffer(vocabulary: seq<string>, topic: string, title: string, description: string, title': string,
                   description': string)
    returns (w: World)
    requires topic in vocabulary && HashOf(title, description) == HashOf(title', description')
    requires topic !in KeywordTags(vocabulary, title, description)
             && topic in KeywordTags(vocabulary, title', description')
    ensures Reachable(KeywordTagger(vocabulary), w) && 0 in w.rows && UpToDate(w.rows[0]) && !Eligible(w.rows[0])
    ensures w.rows[0].title == title' && w.rows[0].description == description'
    ensures topic !in w.rows[0].topics && topic in Topics(KeywordTagger(vocabulary), title', description')
  {
    TagsAllowed(vocabulary, title, description, topic);
    TagsAllowed(vocabulary, title', description', topic);
    w := EditGoesUnnoticed(KeywordTagger(vocabulary), title, description, title', description');
  }

  /** For instance "machine-learning", with "machine" and "learning" on two lines under the title "a". */
  lemma MachineLearningStaysMissing(vocabulary: seq<string>, topic: string) returns (w: World)
    requires topic == "machine" + "-" + "learning" && topic in vocabulary
    requires OthersForeign(vocabulary, topic, MovedText("a", "machine", "learning"))
    ensures Reachable(KeywordTagger(vocabulary), w) && 0 in w.rows && UpToDate(w.rows[0]) && !Eligible(w.rows[0])
    ensures topic !in w.rows[0].topics
    ensures topic in Topics(KeywordTagger(vocabulary), w.rows[0].title, w.rows[0].description)
  {
    w := BrokenTopicStaysMissing(vocabulary, topic, "a", "machine", "learning");
  }
}
