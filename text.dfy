/**
 * The two Python string methods the country check relies on: `str.strip()`
 * with no argument and `str.upper()`.
 */
module Text {

  /** Characters for which Python's `str.isspace()` holds, the set `strip()` removes. */
  predicate IsSpace(c: char) {
    if c <= ' ' then c == ' ' || ('\t' <= c <= '\r') || ('\U{1c}' <= c <= '\U{1f}')
    else if c < '\U{85}' then false
    else
      || c == '\U{85}' || c == '\U{a0}' || c == '\U{1680}' || ('\U{2000}' <= c <= '\U{200a}')
      || c == '\U{2028}' || c == '\U{2029}' || c == '\U{202f}' || c == '\U{205f}' || c == '\U{3000}'
  }

  /** `s.lstrip()`: drops leading whitespace. */
  function StripLeft(s: string): string {
    if s != [] && IsSpace(s[0]) then StripLeft(s[1..]) else s
  }

  /** `s.rstrip()`: drops trailing whitespace. */
  function StripRight(s: string): string {
    if s != [] && IsSpace(s[|s| - 1]) then StripRight(s[..|s| - 1]) else s
  }

  /** `s.strip()`. */
  function Strip(s: string): string {
    StripRight(StripLeft(s))
  }

  /** `c.upper()` for one character; only ASCII letters are mapped. */
  function UpperChar(c: char): char {
    if 'a' <= c <= 'z' then (c as int - 'a' as int + 'A' as int) as char else c
  }

  /** `s.upper()`, character by character. */
  function Upper(s: string): (r: string)
    ensures |r| == |s|
  {
    seq(|s|, k requires 0 <= k < |s| => UpperChar(s[k]))
  }

  /** `s.strip().upper()`, the normal form two country codes are compared in. */
  function Normalize(s: string): string {
    Upper(Strip(s))
  }

  /** What `lstrip` leaves: a suffix of `s` that does not start with whitespace, after only whitespace. */
  lemma {:induction false} StripLeftSpec(s: string)
    ensures |StripLeft(s)| <= |s| && StripLeft(s) == s[|s| - |StripLeft(s)|..]
    ensures forall k :: 0 <= k < |s| - |StripLeft(s)| ==> IsSpace(s[k])
    ensures StripLeft(s) == [] || !IsSpace(StripLeft(s)[0])
  {
    if s != [] && IsSpace(s[0]) {
      StripLeftSpec(s[1..]);
      forall k | 1 <= k < |s| - |StripLeft(s)| ensures IsSpace(s[k]) {
        assert s[k] == s[1..][k - 1];
      }
    }
  }

  /** What `rstrip` leaves: a prefix of `s` that does not end with whitespace, before only whitespace. */
  lemma {:induction false} StripRightSpec(s: string)
    ensures |StripRight(s)| <= |s| && StripRight(s) == s[..|StripRight(s)|]
    ensures forall k :: |StripRight(s)| <= k < |s| ==> IsSpace(s[k])
    ensures StripRight(s) == [] || !IsSpace(StripRight(s)[|StripRight(s)| - 1])
  {
    if s != [] && IsSpace(s[|s| - 1]) {
      StripRightSpec(s[..|s| - 1]);
    }
  }

  /** `s.strip()` is empty exactly when `s` is all whitespace. */
  lemma StripEmptyIff(s: string)
    ensures Strip(s) == [] <==> forall k :: 0 <= k < |s| ==> IsSpace(s[k])
  {
    var l := StripLeft(s);
    StripLeftSpec(s);
    StripRightSpec(l);
    if l != [] {
      assert !IsSpace(l[0]) && l[0] == s[|s| - |l|];
    }
  }

  /** A normal form is empty exactly when the text is all whitespace. */
  lemma NormalizeEmptyIff(s: string)
    ensures Normalize(s) == [] <==> forall k :: 0 <= k < |s| ==> IsSpace(s[k])
  {
    StripEmptyIff(s);
  }

  /** Stripping is idempotent. */
  lemma StripIdempotent(s: string)
    ensures Strip(Strip(s)) == Strip(s)
  {
    var l := StripLeft(s);
    var t := StripRight(l);
    StripLeftSpec(s);
    StripRightSpec(l);
    if t != [] {
      assert t[0] == l[0];
    }
    StripLeftNoLeadingSpace(t);
    StripRightNoTrailingSpace(t);
  }

  lemma StripLeftNoLeadingSpace(s: string)
    requires s == [] || !IsSpace(s[0])
    ensures StripLeft(s) == s
  {
  }

  lemma StripRightNoTrailingSpace(s: string)
    requires s == [] || !IsSpace(s[|s| - 1])
    ensures StripRight(s) == s
  {
  }

  /** Text without whitespace or lower-case ASCII letters, such as "US", is already in normal form. */
  lemma NormalizeFixed(s: string)
    requires forall k :: 0 <= k < |s| ==> !IsSpace(s[k]) && !('a' <= s[k] <= 'z')
    ensures Normalize(s) == s
  {
    StripLeftNoLeadingSpace(s);
    StripRightNoTrailingSpace(s);
  }

  /** `" IR ".strip().upper()` and `"ir".strip().upper()` are both `"IR"`. */
  lemma NormalizeExample()
    ensures Normalize(" IR ") == "IR" && Normalize("ir") == "IR"
  {
    StripPaddedExample();
    UpperExample();
  }

  lemma StripPaddedExample()
    ensures Strip(" IR ") == "IR" && Strip("ir") == "ir"
  {
    var padded, inner := " IR ", "IR";
    assert padded[1..] == inner + [' '] && padded[0] == ' ';
    StripLeftNoLeadingSpace(inner + [' ']);
    assert StripLeft(padded) == inner + [' '];
    assert (inner + [' '])[..2] == inner;
    StripRightNoTrailingSpace(inner);
    assert StripRight(inner + [' ']) == inner;
    StripLeftNoLeadingSpace("ir");
    StripRightNoTrailingSpace("ir");
  }

  lemma UpperExample()
    ensures Upper("IR") == "IR" && Upper("ir") == "IR"
  {
    assert UpperChar('i') == 'I' && UpperChar('r') == 'R';
  }

  /** The codes "US", "IR" and "KP" are in normal form. */
  lemma CodeExamples()
    ensures Normalize("US") == "US" && Normalize("IR") == "IR" && Normalize("KP") == "KP"
  {
    assert Normalize("US") == "US" by {
      NormalizeFixed("US");
    }
    assert Normalize("IR") == "IR" by {
      NormalizeFixed("IR");
    }
    assert Normalize("KP") == "KP" by {
      NormalizeFixed("KP");
    }
  }
}
