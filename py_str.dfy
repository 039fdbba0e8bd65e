/** The Python `str` operations the services rely on: `isspace`, `lower`,
    `title`, `lstrip(c)` and `split()`. Case mapping covers the ASCII letters;
    whitespace is the full set Python's `str.split()` breaks on. */
module PyStr {

  /** `c.isspace()`: the characters `str.split()` and `str.strip()` treat as whitespace. */
  predicate IsSpace(c: char) {
    ('\t' <= c && c <= '\r') || ('\U{1C}' <= c && c <= '\U{1F}') || c == ' '
    || c == '\U{85}' || c == '\U{A0}' || c == '\U{1680}'
    || ('\U{2000}' <= c && c <= '\U{200A}') || c == '\U{2028}' || c == '\U{2029}'
    || c == '\U{202F}' || c == '\U{205F}' || c == '\U{3000}'
  }

  predicate IsUpper(c: char) { 'A' <= c && c <= 'Z' }

  predicate IsLetter(c: char) { ('A' <= c && c <= 'Z') || ('a' <= c && c <= 'z') }

  function ToLower(c: char): char {
    if IsUpper(c) then (c as int + 32) as char else c
  }

  function ToUpper(c: char): char {
    if 'a' <= c && c <= 'z' then (c as int - 32) as char else c
  }

  /** No upper-case letter anywhere. */
  predicate IsLowerCase(s: string) {
    forall i :: 0 <= i < |s| ==> !IsUpper(s[i])
  }

  /** `s.lower()` */
  function Lower(s: string): (r: string)
    ensures |r| == |s| && IsLowerCase(r)
    ensures forall i :: 0 <= i < |s| ==> r[i] == ToLower(s[i])
  {
    seq(|s|, i requires 0 <= i < |s| => ToLower(s[i]))
  }

  /** Lower-casing changes nothing in a string that is already lower case. */
  lemma LowerOfLowerCase(s: string)
    requires IsLowerCase(s)
    ensures Lower(s) == s
  {
  }

  /** Lower-casing keeps a run of non-letter markers in front and lower-cases
      the rest. */
  lemma LowerAfterMarkers(c: char, k: nat, s: string)
    requires !IsUpper(c)
    ensures Lower(Repeat(c, k) + s) == Repeat(c, k) + Lower(s)
  {
    var t := Repeat(c, k) + s;
    assert forall i :: 0 <= i < |t| ==> Lower(t)[i] == (Repeat(c, k) + Lower(s))[i];
  }

  /** How many copies of `c` open `s`. */
  function LeadingCount(s: string, c: char): (n: nat)
    ensures n <= |s|
    ensures forall i :: 0 <= i < n ==> s[i] == c
    ensures n < |s| ==> s[n] != c
  {
    if s != [] && s[0] == c then 1 + LeadingCount(s[1..], c) else 0
  }

  /** `s.lstrip(c)`: every leading `c` is removed, not just the first. */
  function LStrip(s: string, c: char): (r: string)
    ensures |r| <= |s| && r == s[|s| - |r|..]
    ensures r == [] || r[0] != c
  {
    s[LeadingCount(s, c)..]
  }

  /** `s` is the markers `lstrip` removed followed by what it kept. */
  lemma LStripSplit(s: string, c: char)
    ensures s == Repeat(c, |s| - |LStrip(s, c)|) + LStrip(s, c)
  {
    var n := LeadingCount(s, c);
    assert s[..n] == Repeat(c, n);
    assert s == s[..n] + s[n..];
  }

  function Repeat(c: char, k: nat): (r: string)
    ensures |r| == k && forall i :: 0 <= i < k ==> r[i] == c
  {
    if k == 0 then [] else [c] + Repeat(c, k - 1)
  }

  /** Markers put in front of a string add to its leading run. */
  lemma {:induction false} LeadingCountRepeat(c: char, k: nat, s: string)
    ensures LeadingCount(Repeat(c, k) + s, c) == k + LeadingCount(s, c)
  {
    var t := Repeat(c, k) + s;
    if k > 0 {
      assert t[0] == c;
      assert t[1..] == Repeat(c, k - 1) + s;
      LeadingCountRepeat(c, k - 1, s);
    } else {
      assert t == s;
    }
  }

  /** Any number of markers in front of a key normalise away: `"##python"`,
      `"#python"` and `"python"` give the same stripped key, and stripping twice
      is stripping once. */
  lemma LStripIgnoresMarkers(c: char, k: nat, s: string)
    ensures LStrip(Repeat(c, k) + s, c) == LStrip(s, c)
    ensures LStrip(LStrip(s, c), c) == LStrip(s, c)
  {
    var t := Repeat(c, k) + s;
    LeadingCountRepeat(c, k, s);
    assert t[k..] == s;
    assert t[k + LeadingCount(s, c)..] == s[LeadingCount(s, c)..];
    assert LeadingCount(LStrip(s, c), c) == 0;
  }

  /** `s.title()`: a letter is upper-cased when the character before it is not
      a letter and lower-cased otherwise; other characters are kept. */
  function Title(s: string): (r: string)
    ensures |r| == |s|
    ensures forall i :: 0 <= i < |s| ==> ToLower(r[i]) == ToLower(s[i])
    ensures forall i :: 0 <= i < |s| && IsLetter(s[i]) ==>
      (IsUpper(r[i]) <==> (i == 0 || !IsLetter(s[i - 1])))
  {
    TitleFrom(s, false)
  }

  /** `Title` on a suffix whose preceding character was a letter iff `afterLetter`. */
  function TitleFrom(s: string, afterLetter: bool): (r: string)
    ensures |r| == |s|
    ensures forall i :: 0 <= i < |s| ==> ToLower(r[i]) == ToLower(s[i])
    ensures forall i :: 0 <= i < |s| && IsLetter(s[i]) ==>
      (IsUpper(r[i]) <==> (if i == 0 then !afterLetter else !IsLetter(s[i - 1])))
  {
    if s == [] then []
    else
      var c := s[0];
      var d := if !IsLetter(c) then c else if afterLetter then ToLower(c) else ToUpper(c);
      [d] + TitleFrom(s[1..], IsLetter(c))
  }

  /** Title-casing a handle changes only the case of its letters. */
  lemma TitleKeepsLetters(s: string)
    ensures Lower(Title(s)) == Lower(s)
  {
  }

  /** A run of at least one character, none of them whitespace. */
  predicate IsWord(w: string) {
    |w| > 0 && forall i :: 0 <= i < |w| ==> !IsSpace(w[i])
  }

  /** Length of the longest whitespace-free prefix. */
  function WordLen(s: string): (n: nat)
    ensures n <= |s|
    ensures forall i :: 0 <= i < n ==> !IsSpace(s[i])
    ensures n < |s| ==> IsSpace(s[n])
  {
    if s == [] || IsSpace(s[0]) then 0 else 1 + WordLen(s[1..])
  }

  /** `s.split()` with no separator: the maximal runs of non-whitespace, in order;
      leading, trailing and repeated whitespace yield no empty words. */
  function Split(s: string): (words: seq<string>)
    ensures forall k :: 0 <= k < |words| ==> IsWord(words[k])
    decreases |s|
  {
    if s == [] then []
    else if IsSpace(s[0]) then Split(s[1..])
    else
      var n := WordLen(s);
      [s[..n]] + Split(s[n..])
  }

  lemma {:induction false} WordLenAppend(s: string, t: string)
    ensures WordLen(s + t) == if WordLen(s) < |s| then WordLen(s) else |s| + WordLen(t)
    decreases |s|
  {
    if s != [] && !IsSpace(s[0]) {
      assert (s + t)[1..] == s[1..] + t;
      WordLenAppend(s[1..], t);
    } else if s == [] {
      assert s + t == t;
    }
  }

  /** Appending whitespace and one more word to a text appends that word to its
      split. */
  lemma {:induction false} SplitAppendWord(s: string, c: char, w: string)
    requires IsSpace(c) && IsWord(w)
    ensures Split(s + ([c] + w)) == Split(s) + [w]
    decreases |s|
  {
    var t := s + ([c] + w);
    if s == [] {
      assert t == [c] + w;
      assert t[1..] == w;
      WordLenAppend(w, []);
      assert w + [] == w;
      assert w[WordLen(w)..] == [];
    } else if IsSpace(s[0]) {
      assert t[1..] == s[1..] + ([c] + w);
      SplitAppendWord(s[1..], c, w);
    } else {
      var n := WordLen(s);
      WordLenAppend(s, [c] + w);
      assert WordLen(t) == n;
      assert t[..n] == s[..n];
      assert t[n..] == s[n..] + ([c] + w);
      SplitAppendWord(s[n..], c, w);
    }
  }

  /** The words joined by single spaces: the text `Split` takes apart. */
  function JoinWords(ws: seq<string>): string {
    if ws == [] then [] else if |ws| == 1 then ws[0] else ws[0] + (" " + JoinWords(ws[1..]))
  }

  /** A word followed by nothing or by whitespace splits off as the first word. */
  lemma SplitWordThen(w: string, rest: string)
    requires IsWord(w) && (rest == [] || IsSpace(rest[0]))
    ensures Split(w + rest) == [w] + Split(rest)
  {
    var t := w + rest;
    WordLenAppend(w, rest);
    assert t[0] == w[0];
    assert t[..|w|] == w;
    assert t[|w|..] == rest;
  }

  /** `Split` recovers the words of a single-space-separated text. */
  lemma {:induction false} SplitJoin(ws: seq<string>)
    requires forall k :: 0 <= k < |ws| ==> IsWord(ws[k])
    ensures Split(JoinWords(ws)) == ws
  {
    if |ws| == 1 {
      SplitWordThen(ws[0], []);
      assert ws[0] + [] == ws[0];
    } else if |ws| > 1 {
      var rest := " " + JoinWords(ws[1..]);
      SplitWordThen(ws[0], rest);
      assert rest[1..] == JoinWords(ws[1..]);
      SplitJoin(ws[1..]);
      assert [ws[0]] + ws[1..] == ws;
    }
  }
}
