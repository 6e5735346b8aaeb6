/** The two pieces of Go's string library that the services rely on:
    strings.Split on a one-character separator, and len() of a string, which
    counts the bytes of its UTF-8 encoding. */
module Strings {

  function Count(s: string, c: char): nat
    decreases |s|
  {
    if s == [] then 0 else (if s[0] == c then 1 else 0) + Count(s[1..], c)
  }

  /** strings.Split(s, sep): the pieces between separators, so n separators
      give n + 1 pieces and the empty string gives one empty piece. */
  function Split(s: string, sep: char): (parts: seq<string>)
    ensures |parts| == Count(s, sep) + 1
    ensures forall i :: 0 <= i < |parts| ==> sep !in parts[i]
    decreases |s|
  {
    if s == [] then [""]
    else
      var rest := Split(s[1..], sep);
      if s[0] == sep then [""] + rest
      else [[s[0]] + rest[0]] + rest[1..]
  }

  lemma {:induction false} CountConcat(a: string, b: string, c: char)
    ensures Count(a + b, c) == Count(a, c) + Count(b, c)
    decreases |a|
  {
    if a != [] {
      assert (a + b)[1..] == a[1..] + b;
      CountConcat(a[1..], b, c);
    } else {
      assert a + b == b;
    }
  }

  lemma {:induction false} CountAbsent(a: string, c: char)
    requires c !in a
    ensures Count(a, c) == 0
    decreases |a|
  {
    if a != [] {
      CountAbsent(a[1..], c);
    }
  }

  lemma {:induction false} CountPositive(a: string, c: char)
    requires c in a
    ensures Count(a, c) >= 1
    decreases |a|
  {
    if a[0] != c {
      assert c in a[1..];
      CountPositive(a[1..], c);
    }
  }

  /** Splitting text that begins with a separator-free piece and a separator
      yields that piece followed by the split of the remainder. */
  lemma {:induction false} SplitAfter(a: string, b: string, sep: char)
    requires sep !in a
    ensures Split(a + [sep] + b, sep) == [a] + Split(b, sep)
    decreases |a|
  {
    var s := a + [sep] + b;
    if a == [] {
      assert s[1..] == b;
    } else {
      assert s[1..] == a[1..] + [sep] + b;
      SplitAfter(a[1..], b, sep);
      assert [a[0]] + a[1..] == a;
    }
  }

  lemma {:induction false} SplitAbsent(a: string, sep: char)
    requires sep !in a
    ensures Split(a, sep) == [a]
    decreases |a|
  {
    if a != [] {
      SplitAbsent(a[1..], sep);
      assert [a[0]] + a[1..] == a;
    }
  }

  /** Number of bytes in the UTF-8 encoding of a character. */
  function Utf8Width(c: char): nat {
    if c as int < 0x80 then 1
    else if c as int < 0x800 then 2
    else if c as int < 0x10000 then 3
    else 4
  }

  /** len(s) of a Go string: its length in UTF-8 bytes. */
  function Utf8Len(s: string): nat
    decreases |s|
  {
    if s == [] then 0 else Utf8Width(s[0]) + Utf8Len(s[1..])
  }

  /** A string is never shorter in bytes than in characters, and the two
      agree exactly when every character is ASCII. */
  lemma {:induction false} Utf8LenBounds(s: string)
    ensures |s| <= Utf8Len(s) <= 4 * |s|
    ensures Utf8Len(s) == |s| <==> forall i :: 0 <= i < |s| ==> s[i] as int < 0x80
    decreases |s|
  {
    if s != [] {
      Utf8LenBounds(s[1..]);
      assert forall i :: 1 <= i < |s| ==> s[i] == s[1..][i - 1];
    }
  }
}
