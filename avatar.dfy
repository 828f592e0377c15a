/** The avatar helpers shared by the tile view and the detail view (each
    file carries an identical copy): a palette colour chosen by the sum of
    the name's character codes, and up to two upper-cased initials. */
module Avatar {
  import opened Strings

  const Palette: seq<string> := ["#1976d2", "#388e3c", "#d32f2f", "#7b1fa2", "#c2185b", "#0097a7", "#ffa000", "#5d4037"]

  /** The sum of the character codes of `s` (the `reduce` over `charCodeAt`). */
  function CodeSum(s: string): nat {
    if s == [] then 0 else s[0] as nat + CodeSum(s[1..])
  }

  /** `getAvatarColor(name)`: entry `CodeSum(name) % 8` of the palette. */
  function AvatarColor(name: string): (c: string)
    ensures c in Palette
    ensures c == Palette[CodeSum(name) % |Palette|]
    ensures name == "" ==> c == Palette[0]
  {
    Palette[CodeSum(name) % |Palette|]
  }

  lemma {:induction false} CodeSumAppend(a: string, b: string)
    ensures CodeSum(a + b) == CodeSum(a) + CodeSum(b)
    decreases |a|
  {
    if a != [] {
      assert (a + b)[1..] == a[1..] + b;
      CodeSumAppend(a[1..], b);
    } else {
      assert a + b == b;
    }
  }

  /** The code sum, and so the colour, depends only on which characters occur how often. */
  lemma {:induction false} CodeSumIgnoresOrder(s: string, t: string)
    requires multiset(s) == multiset(t)
    ensures CodeSum(s) == CodeSum(t)
    decreases |s|
  {
    if s == [] {
      assert |t| == |multiset(t)| == 0;
    } else {
      var c := s[0];
      assert s == [c] + s[1..];
      assert multiset(s) == multiset{c} + multiset(s[1..]);
      assert c in multiset(t);
      var k :| 0 <= k < |t| && t[k] == c;
      var rest := t[..k] + t[k + 1..];
      assert t == t[..k] + ([c] + t[k + 1..]);
      assert multiset(t) == multiset(t[..k]) + multiset{c} + multiset(t[k + 1..]);
      assert multiset(rest) == multiset(t[..k]) + multiset(t[k + 1..]);
      assert multiset(s[1..]) == multiset(s) - multiset{c};
      assert multiset(rest) == multiset(t) - multiset{c};
      CodeSumIgnoresOrder(s[1..], rest);
      CodeSumAppend(t[..k], [c] + t[k + 1..]);
      CodeSumAppend([c], t[k + 1..]);
      CodeSumAppend(t[..k], t[k + 1..]);
      assert CodeSum([c]) == c as nat;
    }
  }

  /** Any rearrangement of a name gets the same avatar colour. */
  lemma ColorIgnoresOrder(s: string, t: string)
    requires multiset(s) == multiset(t)
    ensures AvatarColor(s) == AvatarColor(t)
  {
    CodeSumIgnoresOrder(s, t);
  }

  /** `parts.map(part => part[0]).join('')`: the first character of every
      non-empty part (an empty part contributes nothing). */
  function HeadChars(parts: seq<string>): (r: string)
    ensures |r| <= |parts|
  {
    if parts == [] then ""
    else (if |parts[0]| > 0 then [parts[0][0]] else "") + HeadChars(parts[1..])
  }

  /** A direct reading of the same thing: the characters of `s` that are not
      a space and follow a space or the start (`afterSpace` says whether the
      position before `s` counts as one). */
  function WordStarts(s: string, afterSpace: bool): string {
    if s == [] then ""
    else (if afterSpace && s[0] != ' ' then [s[0]] else "") + WordStarts(s[1..], s[0] == ' ')
  }

  lemma {:induction false} WordStartsNoSpace(s: string, afterSpace: bool)
    requires ' ' !in s
    ensures WordStarts(s, afterSpace) == (if afterSpace && s != [] then [s[0]] else "")
    decreases |s|
  {
    if s != [] {
      WordStartsNoSpace(s[1..], false);
    }
  }

  lemma {:induction false} WordStartsAcrossSpace(a: string, b: string, afterSpace: bool)
    ensures WordStarts(a + [' '] + b, afterSpace) == WordStarts(a, afterSpace) + WordStarts(b, true)
    decreases |a|
  {
    if a == [] {
      assert a + [' '] + b == [' '] + b;
      assert ([' '] + b)[1..] == b;
    } else {
      assert (a + [' '] + b)[1..] == a[1..] + [' '] + b;
      WordStartsAcrossSpace(a[1..], b, a[0] == ' ');
    }
  }

  /** Splitting on spaces and taking each part's first character picks
      exactly the word starts of the name. */
  lemma {:induction false} HeadCharsOfSplit(s: string)
    ensures HeadChars(Split(s, ' ')) == WordStarts(s, true)
    decreases |s|
  {
    if ' ' !in s {
      WordStartsNoSpace(s, true);
    } else {
      var i := IndexOf(s, ' ');
      var rest := s[i + 1..];
      assert s == s[..i] + [' '] + rest;
      assert Split(s, ' ') == [s[..i]] + Split(rest, ' ');
      assert ([s[..i]] + Split(rest, ' '))[1..] == Split(rest, ' ');
      HeadCharsOfSplit(rest);
      WordStartsNoSpace(s[..i], true);
      WordStartsAcrossSpace(s[..i], rest, true);
    }
  }

  /** `getInitials(name)`: the upper-cased first characters of the
      space-separated words, at most two, in order. */
  function Initials(name: string): (r: string)
    ensures |r| <= 2
    ensures forall i :: 0 <= i < |r| ==> !('a' <= r[i] <= 'z')
    ensures r == Prefix(Upper(WordStarts(name, true)), 2)
  {
    HeadCharsOfSplit(name);
    Prefix(Upper(HeadChars(Split(name, ' '))), 2)
  }
}
