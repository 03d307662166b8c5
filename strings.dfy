/**
 * The hand-written string helpers of the ClickHouse client
 * (internal/clickhouse/client.go): substring search, prefix and suffix
 * tests, and ASCII whitespace trimming.
 */
module Strings {
  import opened Wrappers

  /** `sub` occurs in `s` at offset `i`. */
  predicate OccursAt(s: string, sub: string, i: int) {
    0 <= i && i + |sub| <= |s| && s[i..i + |sub|] == sub
  }

  /** `sub` occurs in `s` at some offset: the meaning of every contains helper. */
  predicate IsSubstring(sub: string, s: string) {
    exists i | 0 <= i <= |s| - |sub| :: OccursAt(s, sub, i)
  }

  /** The empty string is contained in every string, the empty one included. */
  lemma EmptyIsSubstring(s: string)
    ensures IsSubstring("", s)
  {
    assert OccursAt(s, "", 0);
  }

  /** A string never contains a longer one. */
  lemma LongerIsNotSubstring(sub: string, s: string)
    requires |s| < |sub|
    ensures !IsSubstring(sub, s)
  {
  }

  /** `containsMiddle`: scan every offset from 0 to |s| - |sub|. */
  method ContainsMiddle(s: string, sub: string) returns (found: bool)
    ensures found <==> IsSubstring(sub, s)
  {
    var i := 0;
    while i <= |s| - |sub|
      invariant 0 <= i
      invariant |sub| <= |s| ==> i <= |s| - |sub| + 1
      invariant forall j | 0 <= j < i :: !OccursAt(s, sub, j)
    {
      if s[i..i + |sub|] == sub {
        assert OccursAt(s, sub, i);
        return true;
      }
      i := i + 1;
    }
    return false;
  }

  /**
   * `contains`: the equal, prefix and suffix shortcuts are tried before the
   * middle scan, and all of them agree with it.
   */
  method Contains(s: string, sub: string) returns (r: bool)
    ensures r <==> IsSubstring(sub, s)
  {
    if |s| < |sub| {
      r := false;
    } else if s == sub {
      assert OccursAt(s, sub, 0);
      r := true;
    } else if |s| == |sub| {
      // the only offset is 0, and s != sub
      assert !OccursAt(s, sub, 0);
      r := false;
    } else if s[..|sub|] == sub {
      assert OccursAt(s, sub, 0);
      r := true;
    } else if s[|s| - |sub|..] == sub {
      assert OccursAt(s, sub, |s| - |sub|);
      r := true;
    } else {
      r := ContainsMiddle(s, sub);
    }
  }

  /** `containsError`: a nil error contains nothing; otherwise search its text. */
  method ContainsError(err: Option<string>, sub: string) returns (r: bool)
    ensures err.None? ==> !r
    ensures err.Some? ==> (r <==> IsSubstring(sub, err.value))
  {
    if err.None? {
      return false;
    }
    r := Contains(err.value, sub);
  }

  /** `hasPrefix`: `s` begins with `prefix`, character by character. */
  function HasPrefix(s: string, prefix: string): (r: bool)
    ensures r <==> |prefix| <= |s| && forall k | 0 <= k < |prefix| :: s[k] == prefix[k]
  {
    |s| >= |prefix| && s[..|prefix|] == prefix
  }

  /** `hasSuffix`: `s` ends with `suffix`, character by character. */
  function HasSuffix(s: string, suffix: string): (r: bool)
    ensures r <==> |suffix| <= |s| && forall k | 0 <= k < |suffix| :: s[|s| - |suffix| + k] == suffix[k]
  {
    |s| >= |suffix| && s[|s| - |suffix|..] == suffix
  }

  /** A prefix test holds exactly when `s` is `prefix` followed by something. */
  lemma HasPrefixIsConcat(s: string, prefix: string)
    ensures HasPrefix(s, prefix) <==> exists rest :: s == prefix + rest
  {
    if HasPrefix(s, prefix) {
      assert s == prefix + s[|prefix|..];
    }
  }

  /** A suffix test holds exactly when `s` is something followed by `suffix`. */
  lemma HasSuffixIsConcat(s: string, suffix: string)
    ensures HasSuffix(s, suffix) <==> exists rest :: s == rest + suffix
  {
    if HasSuffix(s, suffix) {
      assert s == s[..|s| - |suffix|] + suffix;
    }
  }

  /** The four characters `trimSpace` removes. */
  predicate IsSpace(c: char) {
    c == ' ' || c == '\t' || c == '\n' || c == '\r'
  }

  /** `s` with its leading whitespace removed. */
  function TrimLeft(s: string): (r: string)
    ensures |r| <= |s|
  {
    if |s| > 0 && IsSpace(s[0]) then TrimLeft(s[1..]) else s
  }

  /** `s` with its trailing whitespace removed. */
  function TrimRight(s: string): (r: string)
    ensures |r| <= |s|
  {
    if |s| > 0 && IsSpace(s[|s| - 1]) then TrimRight(s[..|s| - 1]) else s
  }

  /** The value `trimSpace` computes: leading whitespace first, then trailing. */
  function Trimmed(s: string): string {
    TrimRight(TrimLeft(s))
  }

  /** What TrimLeft removes is whitespace, and what it keeps is a suffix of `s`. */
  lemma {:induction false} TrimLeftShape(s: string)
    ensures TrimLeft(s) == s[|s| - |TrimLeft(s)|..]
    ensures forall k | 0 <= k < |s| - |TrimLeft(s)| :: IsSpace(s[k])
    ensures TrimLeft(s) == [] || !IsSpace(TrimLeft(s)[0])
  {
    if |s| > 0 && IsSpace(s[0]) {
      TrimLeftShape(s[1..]);
    }
  }

  /** What TrimRight removes is whitespace, and what it keeps is a prefix of `s`. */
  lemma {:induction false} TrimRightShape(s: string)
    ensures TrimRight(s) == s[..|TrimRight(s)|]
    ensures forall k | |TrimRight(s)| <= k < |s| :: IsSpace(s[k])
    ensures TrimRight(s) == [] || !IsSpace(TrimRight(s)[|TrimRight(s)| - 1])
  {
    if |s| > 0 && IsSpace(s[|s| - 1]) {
      TrimRightShape(s[..|s| - 1]);
    }
  }

  /**
   * The trimmed string is the contiguous slice s[lo..hi] with only whitespace
   * outside it, and it neither starts nor ends with whitespace.
   */
  lemma TrimmedIsCoreSlice(s: string)
    ensures exists lo, hi ::
              && 0 <= lo <= hi <= |s| && Trimmed(s) == s[lo..hi]
              && (forall k | 0 <= k < lo :: IsSpace(s[k]))
              && (forall k | hi <= k < |s| :: IsSpace(s[k]))
    ensures Trimmed(s) == [] || (!IsSpace(Trimmed(s)[0]) && !IsSpace(Trimmed(s)[|Trimmed(s)| - 1]))
  {
    var left := TrimLeft(s);
    TrimLeftShape(s);
    TrimRightShape(left);
    var lo := |s| - |left|;
    var hi := lo + |TrimRight(left)|;
    assert Trimmed(s) == s[lo..hi];
    assert forall k | hi <= k < |s| :: s[k] == left[k - lo];
  }

  /** Trimming a string that neither starts nor ends with whitespace changes nothing. */
  lemma {:induction false} TrimOfCore(s: string)
    requires s == [] || (!IsSpace(s[0]) && !IsSpace(s[|s| - 1]))
    ensures Trimmed(s) == s
  {
  }

  /** trimSpace is idempotent. */
  lemma TrimmedIdempotent(s: string)
    ensures Trimmed(Trimmed(s)) == Trimmed(s)
  {
    TrimmedIsCoreSlice(s);
    TrimOfCore(Trimmed(s));
  }

  /** Appending one character to a string changes its left trim only at the end. */
  lemma {:induction false} TrimLeftSnoc(s: string, c: char)
    ensures TrimLeft(s + [c]) == if TrimLeft(s) == [] then TrimLeft([c]) else TrimLeft(s) + [c]
  {
    if |s| > 0 && IsSpace(s[0]) {
      assert (s + [c])[1..] == s[1..] + [c];
      TrimLeftSnoc(s[1..], c);
    } else if |s| == 0 {
      assert s + [c] == [c];
    }
  }

  /** A trailing newline makes no difference to trimSpace. */
  lemma TrimmedIgnoresNewline(s: string)
    ensures Trimmed(s + "\n") == Trimmed(s)
  {
    TrimLeftSnoc(s, '\n');
    if TrimLeft(s) != [] {
      var t := TrimLeft(s) + "\n";
      assert t[..|t| - 1] == TrimLeft(s);
    }
  }

  /** Trimming a slice on the right removes a whitespace character at its end first. */
  lemma TrimRightDropsSpace(s: string, start: nat, end: nat)
    requires start < end <= |s| && IsSpace(s[end - 1])
    ensures TrimRight(s[start..end]) == TrimRight(s[start..end - 1])
  {
    var t := s[start..end];
    var u := t[..|t| - 1];
    var v := s[start..end - 1];
    assert |u| == |v|;
    forall k | 0 <= k < |u|
      ensures u[k] == v[k]
    {
    }
    assert u == v;
  }

  /** `trimSpace`: advance `start` past leading whitespace, then pull `end` back. */
  method TrimSpace(s: string) returns (r: string)
    ensures r == Trimmed(s)
  {
    var start := 0;
    var end := |s|;
    while start < end && IsSpace(s[start])
      invariant 0 <= start <= end == |s|
      invariant TrimLeft(s[start..]) == TrimLeft(s)
    {
      assert s[start..][1..] == s[start + 1..];
      start := start + 1;
    }
    assert TrimLeft(s[start..]) == s[start..end];
    while end > start && IsSpace(s[end - 1])
      invariant start <= end <= |s|
      invariant TrimRight(s[start..end]) == Trimmed(s)
    {
      TrimRightDropsSpace(s, start, end);
      end := end - 1;
    }
    r := s[start..end];
  }
}
