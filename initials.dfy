/** `getInitials` of the web client (apps/web/src/lib/utils.ts): split the name
    on single spaces, take the first character of each piece, join, upper-case,
    keep at most two characters. */
module Initials {
  import opened Text

  /** `words.map((n) => n[0]).join("")`: an empty piece gives `undefined`, which
      `join` renders as nothing. */
  function FirstChars(words: seq<string>): string
  {
    if words == [] then ""
    else (if words[0] == [] then "" else [words[0][0]]) + FirstChars(words[1..])
  }

  function GetInitials(name: string): (r: string)
    ensures |r| <= 2
    ensures Upper(r) == r
  {
    var u := Upper(FirstChars(Split(name, ' ')));
    UpperIdempotent(u[..if |u| < 2 then |u| else 2]);
    u[..if |u| < 2 then |u| else 2]
  }

  /** An independent reading: the characters that start a word, i.e. that are
      not a space and stand first or right after a space. `atStart` says
      whether the previous character was a space (or there was none). */
  function WordStarts(s: string, atStart: bool): string
  {
    if s == [] then ""
    else if s[0] == ' ' then WordStarts(s[1..], true)
    else (if atStart then [s[0]] else "") + WordStarts(s[1..], false)
  }

  lemma {:induction false} WordStartsUpToSpace(s: string, k: nat, atStart: bool)
    requires k < |s| && s[k] == ' '
    requires forall i :: 0 <= i < k ==> s[i] != ' '
    ensures WordStarts(s, atStart) == (if k > 0 && atStart then [s[0]] else "") + WordStarts(s[k + 1..], true)
  {
    if k > 0 {
      WordStartsUpToSpace(s[1..], k - 1, false);
    } else {
      assert s[1..] == s[k + 1..];
    }
  }

  lemma {:induction false} WordStartsNoSpace(s: string, atStart: bool)
    requires ' ' !in s
    ensures WordStarts(s, atStart) == (if s != [] && atStart then [s[0]] else "")
  {
    if s != [] {
      assert s[0] in s;
      assert forall c :: c in s[1..] ==> c in s;
      WordStartsNoSpace(s[1..], false);
    }
  }

  /** Splitting on " " and taking first characters picks exactly the word starts:
      only the space separates words and empty pieces contribute nothing. */
  lemma {:induction false} FirstCharsAreWordStarts(s: string)
    ensures FirstChars(Split(s, ' ')) == WordStarts(s, true)
    decreases |s|
  {
    var k := IndexOf(s, ' ');
    if k == |s| {
      assert s[..k] == s;
      WordStartsNoSpace(s, true);
    } else {
      assert forall i :: 0 <= i < k ==> s[i] == s[..k][i];
      WordStartsUpToSpace(s, k, true);
      FirstCharsAreWordStarts(s[k + 1..]);
      assert Split(s, ' ') == [s[..k]] + Split(s[k + 1..], ' ');
      assert FirstChars([s[..k]] + Split(s[k + 1..], ' ')) == (if k > 0 then [s[0]] else "") + FirstChars(Split(s[k + 1..], ' '));
    }
  }

  /** The initials are the upper-cased first two word starts. */
  lemma InitialsFromWordStarts(name: string)
    ensures var w := WordStarts(name, true);
            GetInitials(name) == Upper(w[..if |w| < 2 then |w| else 2])
  {
    FirstCharsAreWordStarts(name);
    var w := WordStarts(name, true);
    var n := if |w| < 2 then |w| else 2;
    assert Upper(w)[..n] == Upper(w[..n]);
  }

  /** "First Last" gives the upper-cased first letters of the two words. */
  lemma TwoWords(first: string, last: string)
    requires first != [] && last != [] && ' ' !in first && ' ' !in last
    ensures GetInitials(first + " " + last) == [UpperChar(first[0]), UpperChar(last[0])]
  {
    var s := first + " " + last;
    assert forall i :: 0 <= i < |first| ==> s[i] == first[i];
    WordStartsUpToSpace(s, |first|, true);
    assert s[|first| + 1..] == last;
    WordStartsNoSpace(last, true);
    InitialsFromWordStarts(s);
  }
}
