/** Python's `str.strip()` with no argument: remove leading and trailing
    whitespace, where whitespace is what `str.isspace()` accepts. */
module Text {

  /** The characters Python's `str.isspace()` accepts: the ASCII controls
      TAB..CR, the separators 0x1C..0x1F, SPACE, and the Unicode spaces. */
  predicate IsSpace(c: char) {
    c == ' ' || '\t' <= c <= '\r' || '\U{1C}' <= c <= '\U{1F}'
    || c == '\U{85}' || c == '\U{A0}' || c == '\U{1680}'
    || '\U{2000}' <= c <= '\U{200A}' || c == '\U{2028}' || c == '\U{2029}'
    || c == '\U{202F}' || c == '\U{205F}' || c == '\U{3000}'
  }

  predicate AllSpace(s: string) {
    forall i :: 0 <= i < |s| ==> IsSpace(s[i])
  }

  /** Neither the first nor the last character of `s` is whitespace. */
  predicate Unpadded(s: string) {
    s == [] || (!IsSpace(s[0]) && !IsSpace(s[|s| - 1]))
  }

  /** `s` without its leading whitespace. */
  function TrimStart(s: string): string {
    if s != [] && IsSpace(s[0]) then TrimStart(s[1..]) else s
  }

  /** `s` without its trailing whitespace. */
  function TrimEnd(s: string): string {
    if s != [] && IsSpace(s[|s| - 1]) then TrimEnd(s[..|s| - 1]) else s
  }

  /** Python's `s.strip()`. */
  function Strip(s: string): string {
    TrimEnd(TrimStart(s))
  }

  /** `TrimStart(s)` is a suffix of `s` cut after a run of whitespace, and it
      starts with a non-whitespace character. */
  lemma {:induction false} TrimStartSplits(s: string)
    ensures |TrimStart(s)| <= |s| && TrimStart(s) == s[|s| - |TrimStart(s)|..]
    ensures AllSpace(s[..|s| - |TrimStart(s)|])
    ensures TrimStart(s) == [] || !IsSpace(TrimStart(s)[0])
  {
    if s != [] && IsSpace(s[0]) {
      TrimStartSplits(s[1..]);
      var n := |s| - |TrimStart(s)|;
      assert s[1..][..n - 1] == s[1..n];
      assert forall i | 1 <= i < n :: s[i] == s[1..n][i - 1];
    }
  }

  /** `TrimEnd(s)` is a prefix of `s` followed by a run of whitespace, and it
      ends with a non-whitespace character. */
  lemma {:induction false} TrimEndSplits(s: string)
    ensures |TrimEnd(s)| <= |s| && TrimEnd(s) == s[..|TrimEnd(s)|]
    ensures AllSpace(s[|TrimEnd(s)|..])
    ensures TrimEnd(s) == [] || !IsSpace(TrimEnd(s)[|TrimEnd(s)| - 1])
  {
    if s != [] && IsSpace(s[|s| - 1]) {
      var p := s[..|s| - 1];
      TrimEndSplits(p);
      var n := |TrimEnd(s)|;
      assert p[n..] == s[n..|s| - 1];
      assert forall i | n <= i < |s| - 1 :: s[i] == s[n..|s| - 1][i - n];
    }
  }

  /** `Strip(s)` is no longer than `s`, neither starts nor ends with
      whitespace, and is empty exactly when `s` is all whitespace. */
  lemma StripSplits(s: string)
    ensures |Strip(s)| <= |s|
    ensures Unpadded(Strip(s))
    ensures Strip(s) == [] <==> AllSpace(s)
  {
    var t := TrimStart(s);
    TrimStartSplits(s);
    TrimEndSplits(t);
    if Strip(s) == [] {
      assert AllSpace(t[|Strip(s)|..]);
      assert s == s[..|s| - |t|] + t;
    }
    assert t != [] ==> t[0] == s[|s| - |t|];
  }

  lemma {:induction false} TrimStartPadded(lead: string, t: string)
    requires AllSpace(lead)
    requires t == [] || !IsSpace(t[0])
    ensures TrimStart(lead + t) == t
  {
    if lead == [] {
      assert lead + t == t;
    } else {
      assert (lead + t)[1..] == lead[1..] + t;
      TrimStartPadded(lead[1..], t);
    }
  }

  lemma {:induction false} TrimEndPadded(t: string, trail: string)
    requires AllSpace(trail)
    requires t == [] || !IsSpace(t[|t| - 1])
    ensures TrimEnd(t + trail) == t
  {
    if trail == [] {
      assert t + trail == t;
    } else {
      var n := |trail| - 1;
      assert (t + trail)[..|t + trail| - 1] == t + trail[..n];
      TrimEndPadded(t, trail[..n]);
    }
  }

  /** `Strip` has exactly one answer: whenever `s` is a run of whitespace, an
      unpadded middle and another run of whitespace, the middle is `Strip(s)`. */
  lemma StripUnique(lead: string, middle: string, trail: string)
    requires AllSpace(lead) && AllSpace(trail) && Unpadded(middle)
    ensures Strip(lead + middle + trail) == middle
  {
    if middle == [] {
      assert lead + middle + trail == lead + trail;
      assert AllSpace(lead + trail) by {
        forall i | 0 <= i < |lead + trail| ensures IsSpace((lead + trail)[i]) {
          if i >= |lead| { assert (lead + trail)[i] == trail[i - |lead|]; }
        }
      }
      TrimStartPadded(lead + trail, []);
      assert lead + trail + [] == lead + trail;
    } else {
      assert lead + middle + trail == lead + (middle + trail);
      TrimStartPadded(lead, middle + trail);
      TrimEndPadded(middle, trail);
    }
  }
}
