/** The string functions the server normalises its keys with. */
module Text {

  predicate IsSpace(c: char) {
    var u := c as int;
    9 <= u <= 13 || u in {0x20, 0x85, 0xA0, 0x1680, 0x2028, 0x2029, 0x202F, 0x205F, 0x3000} || 0x2000 <= u <= 0x200A
  }

  function TrimLeft(s: string): string {
    if s != "" && IsSpace(s[0]) then TrimLeft(s[1..]) else s
  }

  function TrimRight(s: string): string {
    if s != "" && IsSpace(s[|s| - 1]) then TrimRight(s[..|s| - 1]) else s
  }

  function TrimSpace(s: string): string {
    TrimRight(TrimLeft(s))
  }

  function LowerChar(c: char): char {
    if 'A' <= c <= 'Z' then (c as int + 32) as char else c
  }

  function ToLower(s: string): (t: string)
    ensures |t| == |s| && forall i :: 0 <= i < |s| ==> t[i] == LowerChar(s[i])
  {
    if s == "" then "" else [LowerChar(s[0])] + ToLower(s[1..])
  }

  /** strings.ToLower(strings.TrimSpace(s)) */
  function Key(s: string): string {
    ToLower(TrimSpace(s))
  }

  // ---------- white space ----------

  /** Unicode's White_Space characters. */
  const WHITE_SPACE := "\t\n\U{b}\U{c}\r \U{85}\U{a0}\U{1680}\U{2000}\U{2001}\U{2002}\U{2003}\U{2004}\U{2005}"
    + "\U{2006}\U{2007}\U{2008}\U{2009}\U{200a}\U{2028}\U{2029}\U{202f}\U{205f}\U{3000}"

  lemma SpaceIff(c: char)
    ensures IsSpace(c) <==> c in WHITE_SPACE
  {
    var u := c as int;
    assert IsSpace(c) <==> u in {9, 10, 11, 12, 13, 0x20, 0x85, 0xA0, 0x1680, 0x2000, 0x2001, 0x2002, 0x2003, 0x2004,
      0x2005, 0x2006, 0x2007, 0x2008, 0x2009, 0x200A, 0x2028, 0x2029, 0x202F, 0x205F, 0x3000};
  }

  predicate Trimmed(s: string) {
    s == "" || (!IsSpace(s[0]) && !IsSpace(s[|s| - 1]))
  }

  predicate Blank(s: string) {
    forall i :: 0 <= i < |s| ==> IsSpace(s[i])
  }

  lemma {:induction false} TrimLeftStart(s: string) returns (left: string)
    ensures TrimLeft(s) == "" || !IsSpace(TrimLeft(s)[0])
    ensures s == left + TrimLeft(s) && Blank(left)
  {
    left := "";
    if s != "" && IsSpace(s[0]) {
      left := TrimLeftStart(s[1..]);
      left := [s[0]] + left;
    }
  }

  lemma {:induction false} TrimRightEnds(s: string) returns (right: string)
    ensures s == "" || !IsSpace(s[0]) ==> Trimmed(TrimRight(s))
    ensures s == TrimRight(s) + right && Blank(right)
  {
    right := "";
    if s != "" && IsSpace(s[|s| - 1]) {
      right := TrimRightEnds(s[..|s| - 1]);
      right := right + [s[|s| - 1]];
    }
  }

  /** Trimming takes white space away at both ends, all of it and nothing else. */
  lemma TrimSpaceParts(s: string) returns (left: string, right: string)
    ensures Trimmed(TrimSpace(s))
    ensures s == left + TrimSpace(s) + right && Blank(left) && Blank(right)
  {
    left := TrimLeftStart(s);
    right := TrimRightEnds(TrimLeft(s));
    assert left + (TrimSpace(s) + right) == left + TrimSpace(s) + right;
  }

  lemma TrimTwice(s: string)
    ensures TrimSpace(TrimSpace(s)) == TrimSpace(s)
  {
    var left, right := TrimSpaceParts(s);
  }

  // ---------- case ----------

  predicate IsUpper(c: char) {
    'A' <= c <= 'Z'
  }

  /** The same character, or the same letter in the other case. */
  predicate SameLetter(c: char, d: char) {
    c == d || (IsUpper(c) && d as int == c as int + 32) || (IsUpper(d) && c as int == d as int + 32)
  }

  ghost predicate SameText(s: string, t: string) {
    |s| == |t| && forall i :: 0 <= i < |s| ==> SameLetter(s[i], t[i])
  }

  lemma ToLowerIdempotent(s: string)
    ensures ToLower(ToLower(s)) == ToLower(s)
  {
    assert forall i :: 0 <= i < |s| ==> ToLower(ToLower(s))[i] == ToLower(s)[i];
  }

  lemma KeyIdempotent(s: string)
    ensures Key(Key(s)) == Key(s)
  {
    var left, right := TrimSpaceParts(s);
    ToLowerIdempotent(TrimSpace(s));
    assert Trimmed(Key(s));
  }

  lemma LowerChars(c: char, d: char)
    ensures LowerChar(c) == LowerChar(d) <==> SameLetter(c, d)
    ensures SameLetter(LowerChar(c), c) && !IsUpper(LowerChar(c))
  {
  }

  lemma LowerSame(s: string, t: string)
    ensures ToLower(s) == ToLower(t) <==> SameText(s, t)
    ensures SameText(ToLower(s), s) && forall i :: 0 <= i < |s| ==> !IsUpper(ToLower(s)[i])
  {
    hide LowerChar, SameLetter, IsUpper;
    var x, y := ToLower(s), ToLower(t);
    hide ToLower;
    forall i | 0 <= i < |s|
      ensures SameLetter(x[i], s[i]) && !IsUpper(x[i])
      ensures i < |t| ==> (x[i] == y[i] <==> SameLetter(s[i], t[i]))
    {
      LowerChars(s[i], if i < |t| then t[i] else s[i]);
    }
    if |s| == |t| && x != y {
      var i :| 0 <= i < |s| && x[i] != y[i];
      assert !SameLetter(s[i], t[i]);
    }
  }

  /** Two texts have the same key exactly when, without the white space around them, they are the same up to
      the case of letters; and a key is its text in lower case. */
  lemma SameKeyIff(s: string, t: string)
    ensures Key(s) == Key(t) <==> SameText(TrimSpace(s), TrimSpace(t))
    ensures SameText(Key(s), TrimSpace(s)) && forall i :: 0 <= i < |Key(s)| ==> !IsUpper(Key(s)[i])
  {
    LowerSame(TrimSpace(s), TrimSpace(t));
  }

  lemma LowerTail(s: string)
    requires s != ""
    ensures ToLower(s[..|s| - 1]) == ToLower(s)[..|s| - 1] && ToLower(s[1..]) == ToLower(s)[1..]
  {
  }

  lemma {:induction false} TrimLeftLower(s: string)
    ensures TrimLeft(ToLower(s)) == ToLower(TrimLeft(s))
  {
    if s != "" && IsSpace(s[0]) {
      LowerTail(s);
      TrimLeftLower(s[1..]);
    }
  }

  lemma {:induction false} TrimRightLower(s: string)
    ensures TrimRight(ToLower(s)) == ToLower(TrimRight(s))
  {
    if s != "" && IsSpace(s[|s| - 1]) {
      LowerTail(s);
      TrimRightLower(s[..|s| - 1]);
    }
  }

  lemma KeyOfLower(s: string)
    ensures Key(ToLower(s)) == Key(s)
  {
    TrimLeftLower(s);
    TrimRightLower(TrimLeft(s));
    ToLowerIdempotent(TrimSpace(s));
  }
}
