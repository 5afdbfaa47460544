/**
 * `getInitials(name)`: split the name on single spaces, take the first
 * character of every piece (an empty piece contributes nothing), join and
 * upper-case.  The same helper appears in PortfolioWindow, SearchLauncher,
 * DraggableCard and PersonCard.
 */
module Initials {
  import opened Text

  /** `n[0]` as it joins: an empty piece yields `undefined`, which joins as "". */
  function FirstChar(piece: string): string {
    if piece == [] then [] else [piece[0]]
  }

  /** `pieces.map((n) => n[0]).join("")`. */
  function FirstChars(pieces: seq<string>): string {
    if pieces == [] then [] else FirstChar(pieces[0]) + FirstChars(pieces[1..])
  }

  function GetInitials(name: string): string {
    Upper(FirstChars(Split(name, ' ')))
  }

  /**
   * Reference definition: the characters of `s` that start a word, i.e. that
   * are not a space and follow a space or the start of the text.
   */
  function WordStarts(s: string, atStart: bool): string {
    if s == [] then []
    else if s[0] == ' ' then WordStarts(s[1..], true)
    else (if atStart then [s[0]] else []) + WordStarts(s[1..], false)
  }

  lemma {:induction false} FirstCharsAppend(a: seq<string>, b: seq<string>)
    ensures FirstChars(a + b) == FirstChars(a) + FirstChars(b)
  {
    if a == [] {
      assert a + b == b;
    } else {
      var ab := a + b;
      assert ab[0] == a[0];
      assert ab[1..] == a[1..] + b;
      FirstCharsAppend(a[1..], b);
      calc {
        FirstChars(ab);
        FirstChar(a[0]) + FirstChars(a[1..] + b);
        FirstChar(a[0]) + (FirstChars(a[1..]) + FirstChars(b));
        (FirstChar(a[0]) + FirstChars(a[1..])) + FirstChars(b);
        FirstChars(a) + FirstChars(b);
      }
    }
  }

  lemma {:induction false} FirstCharsOfSplit(s: string)
    ensures FirstChars(Split(s, ' ')) == WordStarts(s, true)
    ensures FirstChars(Split(s, ' ')[1..]) == WordStarts(s, false)
  {
    if s != [] {
      var rest := Split(s[1..], ' ');
      FirstCharsOfSplit(s[1..]);
      if s[0] == ' ' {
        assert Split(s, ' ') == [[]] + rest;
        FirstCharsAppend([[]], rest);
        assert ([[]] + rest)[1..] == rest;
      } else {
        var parts := Split(s, ' ');
        assert parts == [[s[0]] + rest[0]] + rest[1..];
        FirstCharsAppend([[s[0]] + rest[0]], rest[1..]);
        assert parts[1..] == rest[1..];
      }
    }
  }

  /** The initials are the upper-cased first letters of the non-empty space-separated words, in order. */
  lemma InitialsAreWordStarts(name: string)
    ensures GetInitials(name) == Upper(WordStarts(name, true))
  {
    FirstCharsOfSplit(name);
  }

  /** One initial per word: the count of word starts. */
  function WordCount(s: string, atStart: bool): nat {
    if s == [] then 0
    else if s[0] == ' ' then WordCount(s[1..], true)
    else (if atStart then 1 else 0) + WordCount(s[1..], false)
  }

  lemma {:induction false} InitialsCount(name: string, atStart: bool)
    ensures |WordStarts(name, atStart)| == WordCount(name, atStart)
    ensures atStart ==> |GetInitials(name)| == WordCount(name, true)
  {
    if name != [] {
      InitialsCount(name[1..], true);
      InitialsCount(name[1..], false);
    }
    if atStart {
      InitialsAreWordStarts(name);
    }
  }
}
