/**
 * The Home page's avatar initials: the first letters of the first two words
 * of the owner's name, upper-cased, or `?` when there is no name.
 */
module Home {
  import opened Js
  import opened Text

  /** `.map(word => word[0]).join('')`: an empty piece contributes nothing. */
  function FirstLetters(words: seq<string>): (letters: string)
    ensures |letters| <= |words|
    decreases |words|
  {
    if words == [] then ""
    else (if words[0] == "" then "" else [words[0][0]]) + FirstLetters(words[1..])
  }

  /** `.slice(0, 2)`. */
  function TakeTwo(s: string): (r: string)
    ensures |r| <= 2 && |r| <= |s| && r == s[..|r|]
    ensures |s| >= 2 ==> |r| == 2
    ensures |s| < 2 ==> r == s
  {
    if |s| <= 2 then s else s[..2]
  }

  /** The trim/split/map/join/upper-case/slice chain applied to a string name. */
  function InitialsOf(name: string): (r: string)
    ensures |r| <= 2
    ensures HasNoLower(r)
  {
    TakeTwo(ToUpper(FirstLetters(Split(Trim(name)))))
  }

  /**
   * `getInitials` as written: `?` for a missing, empty or non-string name,
   * else the chain above; at most two characters and no lower-case letter.
   */
  function GetInitialsAsWritten(name: Value): (r: string)
    ensures |r| <= 2
    ensures HasNoLower(r)
    ensures !(name.Str? && name.s != "") ==> r == "?"
  {
    if !Truthy(name) || !name.Str? then "?" else InitialsOf(name.s)
  }

  /** A whitespace-only name passes the guard and yields no initials at all. */
  lemma BlankNameHasNoInitials()
    ensures GetInitialsAsWritten(Str("   ")) == ""
  {
    assert Trim("   ") == "" by {
      assert AllWhitespace("   ");
    }
    assert Split("") == [""];
  }

  /**
   * `getInitials` with the `?` placeholder also for a name that is only
   * whitespace: never empty, at most two characters, no lower-case letter.
   */
  function GetInitials(name: Value): (r: string)
    ensures 1 <= |r| <= 2
    ensures HasNoLower(r)
    ensures r == "?" <== !name.Str? || AllWhitespace(name.s)
  {
    if !name.Str? || AllWhitespace(name.s) then "?"
    else
      var t := Trim(name.s);
      SplitTrimmedIntoWords(t);
      FirstLettersOfWords(Split(t));
      InitialsOf(name.s)
  }

  /** The correction changes nothing for a name that has a non-whitespace character. */
  lemma CorrectionOnlyAffectsBlankNames(name: Value)
    requires name.Str? && !AllWhitespace(name.s)
    ensures GetInitials(name) == GetInitialsAsWritten(name)
  {
  }

  /** Every piece is a non-empty word. */
  predicate AreWords(words: seq<string>) {
    forall i :: 0 <= i < |words| ==> words[i] != "" && NoWhitespace(words[i])
  }

  /** Every separator is a non-empty whitespace run. */
  predicate AreGaps(gaps: seq<string>) {
    forall i :: 0 <= i < |gaps| ==> gaps[i] != "" && AllWhitespace(gaps[i])
  }

  /** Words with a whitespace run between each pair. */
  function Joined(words: seq<string>, gaps: seq<string>): string
    requires |words| >= 1 && |gaps| == |words| - 1
    decreases |words|
  {
    if |words| == 1 then words[0]
    else words[0] + gaps[0] + Joined(words[1..], gaps[1..])
  }

  lemma {:induction false} FirstLettersOfWords(words: seq<string>)
    requires forall i :: 0 <= i < |words| ==> words[i] != ""
    ensures |FirstLetters(words)| == |words|
    ensures forall i :: 0 <= i < |words| ==> FirstLetters(words)[i] == words[i][0]
    decreases |words|
  {
    if words != [] {
      FirstLettersOfWords(words[1..]);
      var letters := FirstLetters(words);
      assert letters == [words[0][0]] + FirstLetters(words[1..]);
      forall i | 1 <= i < |words|
        ensures letters[i] == words[i][0]
      {
        assert letters[i] == FirstLetters(words[1..])[i - 1];
        assert words[1..][i - 1] == words[i];
      }
    }
  }

  /** Joined words start with the first word's first letter and end with the last word's last letter. */
  lemma {:induction false} JoinedEnds(words: seq<string>, gaps: seq<string>)
    requires |words| >= 1 && |gaps| == |words| - 1
    requires AreWords(words) && AreGaps(gaps)
    ensures var s := Joined(words, gaps);
      && s != ""
      && s[0] == words[0][0]
      && s[|s| - 1] == words[|words| - 1][|words[|words| - 1]| - 1]
    decreases |words|
  {
    if |words| > 1 {
      var rest := Joined(words[1..], gaps[1..]);
      JoinedEnds(words[1..], gaps[1..]);
      var s := words[0] + gaps[0] + rest;
      assert s[0] == words[0][0];
      assert s[|s| - 1] == rest[|rest| - 1];
    }
  }

  /** `split(/\s+/)` takes joined words apart again, whatever the runs between them. */
  lemma {:induction false} SplitJoined(words: seq<string>, gaps: seq<string>)
    requires |words| >= 1 && |gaps| == |words| - 1
    requires AreWords(words) && AreGaps(gaps)
    ensures Split(Joined(words, gaps)) == words
    decreases |words|
  {
    if |words| == 1 {
      SplitOfWord(words[0]);
    } else {
      var rest := Joined(words[1..], gaps[1..]);
      JoinedEnds(words[1..], gaps[1..]);
      SplitJoined(words[1..], gaps[1..]);
      SplitAfterWord(words[0], gaps[0], rest);
      assert words == [words[0]] + words[1..];
    }
  }

  /**
   * A name made of words separated by whitespace runs, with any whitespace
   * around it, has as initials the upper-cased first letters of its first
   * two words, or of its only word.
   */
  lemma InitialsOfWords(before: string, words: seq<string>, gaps: seq<string>, after: string)
    requires AllWhitespace(before) && AllWhitespace(after)
    requires |words| >= 1 && |gaps| == |words| - 1
    requires AreWords(words) && AreGaps(gaps)
    ensures GetInitials(Str(before + Joined(words, gaps) + after))
         == if |words| == 1 then [UpperChar(words[0][0])]
            else [UpperChar(words[0][0]), UpperChar(words[1][0])]
  {
    var s := Joined(words, gaps);
    var name := before + s + after;
    JoinedEnds(words, gaps);
    assert !AllWhitespace(name) by {
      assert name[|before|] == s[0];
    }
    assert Split(Trim(name)) == words by {
      TrimOfPadded(before, s, after);
      SplitJoined(words, gaps);
    }
    FirstLettersOfWords(words);
    UpperInitials(FirstLetters(words), words);
  }

  /** Upper-casing and keeping two of the first letters of some words. */
  lemma UpperInitials(letters: string, words: seq<string>)
    requires |words| >= 1 && |letters| == |words|
    requires forall i :: 0 <= i < |words| ==> words[i] != "" && letters[i] == words[i][0]
    ensures TakeTwo(ToUpper(letters))
         == if |words| == 1 then [UpperChar(words[0][0])]
            else [UpperChar(words[0][0]), UpperChar(words[1][0])]
  {
  }

  /** How much whitespace surrounds or separates the words never matters. */
  lemma InitialsIgnoreSpacing(
    before: string, words: seq<string>, gaps: seq<string>, after: string,
    before': string, gaps': seq<string>, after': string)
    requires AllWhitespace(before) && AllWhitespace(after)
    requires AllWhitespace(before') && AllWhitespace(after')
    requires |words| >= 1 && |gaps| == |words| - 1 && |gaps'| == |words| - 1
    requires AreWords(words) && AreGaps(gaps) && AreGaps(gaps')
    ensures GetInitials(Str(before + Joined(words, gaps) + after))
         == GetInitials(Str(before' + Joined(words, gaps') + after'))
  {
    InitialsOfWords(before, words, gaps, after);
    InitialsOfWords(before', words, gaps', after');
  }
}
