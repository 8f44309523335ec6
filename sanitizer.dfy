/**
 * The sanitizer of main.py: text fields lose every NUL character before
 * they are sent, because the backend's database cannot store it.
 */
module Sanitizer {
  import opened Wrappers

  /** The character that is removed. */
  const NUL: char := '\0'

  /** `s.replace("\x00", "")`: the string with every NUL removed. */
  function StripNul(s: string): (r: string)
    ensures |r| <= |s|
    ensures NUL !in r
  {
    if s == [] then []
    else (if s[0] == NUL then [] else [s[0]]) + StripNul(s[1..])
  }

  /** `sanitize`: an absent value stays absent, a present one is stripped. */
  function Sanitize(s: Option<string>): (r: Option<string>)
    ensures r.None? <==> s.None?
    ensures r.Some? ==> NUL !in r.value && |r.value| <= |s.value|
  {
    match s
    case None => None
    case Some(t) => Some(StripNul(t))
  }

  /** The result is as long as the input minus its NULs. */
  lemma {:induction false} StripNulLength(s: string)
    ensures |StripNul(s)| == |s| - multiset(s)[NUL]
  {
    if s != [] {
      StripNulLength(s[1..]);
      assert s == [s[0]] + s[1..];
    }
  }

  /** Exactly the NULs are dropped: every other character keeps its multiplicity. */
  lemma {:induction false} StripNulContents(s: string)
    ensures multiset(StripNul(s)) == multiset(s)[NUL := 0]
  {
    if s != [] {
      StripNulContents(s[1..]);
      assert s == [s[0]] + s[1..];
    }
  }

  /** Stripping commutes with concatenation, so the order of what is kept is the input's. */
  lemma {:induction false} StripNulAppend(a: string, b: string)
    ensures StripNul(a + b) == StripNul(a) + StripNul(b)
  {
    if a == [] {
      assert a + b == b;
    } else {
      var head := if a[0] == NUL then [] else [a[0]];
      assert (a + b)[0] == a[0];
      assert (a + b)[1..] == a[1..] + b;
      StripNulAppend(a[1..], b);
      calc {
        StripNul(a + b);
        head + StripNul(a[1..] + b);
        head + (StripNul(a[1..]) + StripNul(b));
        (head + StripNul(a[1..])) + StripNul(b);
      }
    }
  }

  /** A non-NUL character at position i lands right after the kept part of s[..i]. */
  lemma StripNulKeeps(s: string, i: nat)
    requires i < |s| && s[i] != NUL
    ensures |StripNul(s[..i])| < |StripNul(s)|
    ensures StripNul(s)[|StripNul(s[..i])|] == s[i]
  {
    assert s == s[..i] + s[i..];
    StripNulAppend(s[..i], s[i..]);
    assert s[i..][0] == s[i];
  }

  /** Nothing but NULs is changed: a string is left alone exactly when it holds no NUL. */
  lemma {:induction false} StripNulFixpoint(s: string)
    ensures StripNul(s) == s <==> NUL !in s
  {
    if s != [] && NUL !in s {
      StripNulFixpoint(s[1..]);
    }
  }

  /** Sanitizing twice is sanitizing once. */
  lemma SanitizeIdempotent(s: Option<string>)
    ensures Sanitize(Sanitize(s)) == Sanitize(s)
  {
    if s.Some? {
      StripNulFixpoint(StripNul(s.value));
    }
  }
}
