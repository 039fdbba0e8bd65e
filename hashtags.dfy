/** Hashtag extraction as both backends do it, from the words of a text. */
module Hashtags {
  import opened PyStr

  /** `w.startswith('#')` */
  predicate IsHashWord(w: string) { |w| > 0 && w[0] == '#' }

  /** `[w for w in words if w.startswith('#')]` */
  function KeepHashWords(words: seq<string>): (r: seq<string>)
    ensures forall k :: 0 <= k < |r| ==> IsHashWord(r[k]) && r[k] in words
    ensures forall w :: w in words && IsHashWord(w) ==> w in r
  {
    if words == [] then []
    else (if IsHashWord(words[0]) then [words[0]] else []) + KeepHashWords(words[1..])
  }

  lemma {:induction false} KeepHashWordsAppend(a: seq<string>, b: seq<string>)
    ensures KeepHashWords(a + b) == KeepHashWords(a) + KeepHashWords(b)
  {
    if a == [] {
      assert a + b == b;
    } else {
      assert (a + b)[1..] == a[1..] + b;
      KeepHashWordsAppend(a[1..], b);
    }
  }

  /** `[w for w in text.split() if w.startswith('#')]`: the whitespace-separated
      words of the text that start with `#`, in order, case kept, duplicates kept. */
  function HashWords(text: string): (tags: seq<string>)
    ensures forall k :: 0 <= k < |tags| ==> IsHashWord(tags[k]) && IsWord(tags[k])
  {
    KeepHashWords(Split(text))
  }

  /** `w[1:].lower()` */
  function TagName(w: string): string
    requires IsHashWord(w)
  {
    Lower(w[1..])
  }

  /** `[w[1:].lower() for w in words]` over words that start with `#`. */
  function LowerNames(tags: seq<string>): (names: seq<string>)
    requires forall k :: 0 <= k < |tags| ==> IsHashWord(tags[k])
    ensures |names| == |tags|
    ensures forall k :: 0 <= k < |tags| ==> names[k] == TagName(tags[k])
  {
    seq(|tags|, k requires 0 <= k < |tags| => TagName(tags[k]))
  }

  /** The lower-cased tag names (without `#`) of a text, as the synthetic
      backend compares them against the requested tag. */
  function TagNames(text: string): (names: seq<string>)
    ensures forall k :: 0 <= k < |names| ==> IsLowerCase(names[k])
  {
    LowerNames(HashWords(text))
  }

  /** `[f"#{t}" for t in names]` */
  function Hashed(names: seq<string>): (tags: seq<string>)
    ensures |tags| == |names|
    ensures forall k :: 0 <= k < |names| ==> tags[k] == "#" + names[k]
  {
    seq(|names|, k requires 0 <= k < |names| => "#" + names[k])
  }

  /** Appending a line `#tag` to a text appends `tag` to its tag names, when the
      tag is one lower-case word. */
  lemma TagNamesAppendLine(text: string, tag: string)
    requires IsWord(tag) && IsLowerCase(tag)
    ensures TagNames(text + "\n#" + tag) == TagNames(text) + [tag]
  {
    var w := "#" + tag;
    assert IsWord(w);
    assert text + "\n#" + tag == text + (['\n'] + w);
    SplitAppendWord(text, '\n', w);
    KeepHashWordsAppend(Split(text), [w]);
    assert KeepHashWords([w]) == [w];
    assert w[1..] == tag;
    LowerOfLowerCase(tag);
    var hs := HashWords(text + "\n#" + tag);
    assert hs == HashWords(text) + [w];
    assert LowerNames(hs) == LowerNames(HashWords(text)) + [tag];
  }
}
