/** Account ids in the browser (apps/web/src/accountStorage.ts). */
module AccountId {

  predicate Letter(c: char) {
    'a' <= c <= 'z' || '0' <= c <= '9'
  }

  predicate Slug(s: string) {
    && s != [] && Letter(s[0]) && Letter(s[|s| - 1])
    && forall i :: 0 <= i < |s| ==> Letter(s[i]) || s[i] == '-'
  }

  const PREFIX: string := "usr_"
  const OWNER: string := "usr_owner"

  /** The id grammar: "usr_", then one to 64 letters, digits and inner dashes. */
  predicate IsAccountId(s: string) {
    PREFIX <= s && 1 <= |s| - |PREFIX| <= 64 && Slug(s[|PREFIX|..])
  }

  predicate Dashed(s: string) {
    forall i :: 0 <= i < |s| ==> Letter(s[i]) || s[i] == '-'
  }

  /** One more letter, behind a letter or not. */
  function WithLetter(words: seq<string>, behind: bool, c: char): seq<string> {
    if behind && words != [] then words[..|words| - 1] + [words[|words| - 1] + [c]] else words + [[c]]
  }

  predicate EndsInLetter(s: string) {
    s != [] && Letter(s[|s| - 1])
  }

  /** The runs of letters and digits of a text, in order. */
  function Words(s: string): (r: seq<string>)
    ensures EndsInLetter(s) ==> r != []
  {
    if s == [] then []
    else if EndsInLetter(s) then WithLetter(Words(s[..|s| - 1]), EndsInLetter(s[..|s| - 1]), s[|s| - 1])
    else Words(s[..|s| - 1])
  }

  /** Words with one dash between them. */
  function Joined(words: seq<string>): string {
    if words == [] then []
    else if |words| == 1 then words[0]
    else Joined(words[..|words| - 1]) + ['-'] + words[|words| - 1]
  }

  /** Words of letters and digits with single dashes between them. */
  ghost predicate Hyphenated(s: string) {
    && Dashed(s) && (s != [] ==> Letter(s[0]) && Letter(s[|s| - 1]))
    && forall i :: 0 < i < |s| ==> s[i - 1] != '-' || s[i] != '-'
  }

  function Extended(slug: string, separated: bool, c: char): string {
    (if separated && slug != [] then slug + ['-'] else slug) + [c]
  }

  lemma ExtendedFacts(slug: string, separated: bool, c: char)
    requires Hyphenated(slug) && Letter(c)
    ensures Hyphenated(Extended(slug, separated, c))
  {
  }

  /** A letter behind a letter lengthens the last word; behind anything else it begins one. */
  lemma LetterJoins(words: seq<string>, behind: bool, c: char)
    ensures Joined(WithLetter(words, behind, c)) ==
            if words == [] then [c] else if behind then Joined(words) + [c] else Joined(words) + ['-'] + [c]
  {
    if behind && words != [] {
      var rest := words[..|words| - 1];
      assert WithLetter(words, behind, c)[..|rest|] == rest;
      if |words| > 1 {
        assert Joined(rest) + ['-'] + (words[|words| - 1] + [c]) == Joined(words) + [c];
      }
    } else if words != [] {
      assert WithLetter(words, behind, c)[..|words|] == words;
    }
  }

  lemma {:induction false} WordsAreText(s: string, i: nat)
    requires i < |Words(s)|
    ensures Words(s)[i] != []
  {
    if i < |Words(s[..|s| - 1])| {
      WordsAreText(s[..|s| - 1], i);
    }
  }

  lemma NoWordsNoText(s: string)
    ensures Joined(Words(s)) == [] <==> Words(s) == []
  {
    if Words(s) != [] {
      WordsAreText(s, |Words(s)| - 1);
    }
  }

  lemma SlugStep(value: string, index: nat, separated: bool)
    requires index < |value| && Letter(value[index])
    requires separated <==> index > 0 && !Letter(value[index - 1])
    ensures Joined(Words(value[..index + 1])) == Extended(Joined(Words(value[..index])), separated, value[index])
  {
    var rest, words := value[..index], Words(value[..index]);
    assert value[..index + 1][..index] == rest;
    assert EndsInLetter(value[..index + 1]) && (index > 0 ==> EndsInLetter(rest) == !separated);
    assert Words(value[..index + 1]) == WithLetter(words, EndsInLetter(rest), value[index]);
    LetterJoins(words, EndsInLetter(rest), value[index]);
    NoWordsNoText(rest);
  }

  /** separatorSlug: the words of the text with one dash between them. */
  method SeparatorSlug(value: string) returns (slug: string)
    ensures slug == Joined(Words(value)) && Hyphenated(slug)
  {
    slug := [];
    var separated := false;
    for index := 0 to |value|
      invariant Hyphenated(slug) && slug == Joined(Words(value[..index]))
      invariant separated <==> index > 0 && !Letter(value[index - 1])
    {
      var c := value[index];
      assert value[..index + 1][..index] == value[..index];
      if Letter(c) {
        ExtendedFacts(slug, separated, c);
        SlugStep(value, index, separated);
        slug := Extended(slug, separated, c);
        separated := false;
      } else {
        separated := true;
      }
    }
    assert value[..|value|] == value;
  }

  /** `r` is the longest part of `slug` from its start that has at most 40 characters and ends in
      a letter or digit. */
  ghost predicate Shortened(r: string, slug: string) {
    && r <= slug && 0 < |r| <= 40 && Letter(r[|r| - 1])
    && forall i :: |r| <= i < |slug| && i < 40 ==> !Letter(slug[i])
  }

  method WithoutTrailingSeparator(value: string) returns (r: string)
    requires Dashed(value)
    ensures r <= value && Dashed(r) && (r != [] ==> Letter(r[|r| - 1]))
    ensures forall i :: |r| <= i < |value| ==> value[i] == '-'
  {
    var end := |value|;
    while end > 0 && value[end - 1] == '-'
      invariant 0 <= end <= |value| && forall i :: end <= i < |value| ==> value[i] == '-'
    {
      end := end - 1;
    }
    r := value[..end];
  }

  /** normalizeAccountId on a trimmed input, `folded` being that input without accents and in lower
      case. An id stays itself; anything else becomes the prefix and its shortened slug, or the
      owner when there is nothing to keep. The result always fits the grammar, so normalizing it
      again changes nothing. */
  method NormalizeAccountId(input: string, folded: string) returns (id: string)
    ensures IsAccountId(id)
    ensures IsAccountId(input) ==> id == input
    ensures !IsAccountId(input) ==>
              if Words(folded) == [] then id == OWNER
              else PREFIX <= id && Shortened(id[|PREFIX|..], Joined(Words(folded)))
  {
    OwnerFits();
    if IsAccountId(input) {
      return input;
    }
    var slug := SeparatorSlug(folded);
    NoWordsNoText(folded);
    var cut := if |slug| <= 40 then slug else slug[..40];
    var trimmed := WithoutTrailingSeparator(cut);
    assert slug != [] ==> cut[0] == slug[0];
    if trimmed == [] {
      return OWNER;
    }
    assert trimmed[0] == slug[0];
    assert forall i :: |trimmed| <= i < |slug| && i < 40 ==> cut[i] == slug[i];
    id := PREFIX + trimmed;
    assert id[|PREFIX|..] == trimmed;
  }

  lemma OwnerFits()
    ensures IsAccountId(OWNER)
  {
    var rest := OWNER[|PREFIX|..];
    assert |OWNER| == 9 && |PREFIX| == 4;
    assert rest[0] == 'o' && rest[1] == 'w' && rest[2] == 'n' && rest[3] == 'e' && rest[4] == 'r';
  }
}
