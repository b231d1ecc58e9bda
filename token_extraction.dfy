/** Token discovery in the listing page (ScraperController.php, lines 62-71):
    the first `preg_match` looks for `"token"\s*:\s*"([A-Za-z0-9]+)"`, and
    only when its capture is empty in PHP's sense a second one looks for
    `[?&]token=([A-Za-z0-9]+)`.  Both patterns are fixed, so each becomes a
    small scanner; `Matches*` below state the regular expressions
    declaratively and the scanners are proved to agree with them. */
module TokenExtraction {
  import opened Wrappers
  import opened Scan
  import opened PhpValues

  /** The capture group `[A-Za-z0-9]+`. */
  predicate IsToken(t: string) { |t| > 0 && AllIn(t, Alnum) }

  const PrimaryKey: string := "\"token\""
  const FallbackKey: string := "token="

  // ---------------------------------------------------------------------
  // The two patterns, stated as regular expressions would read them.
  // ---------------------------------------------------------------------

  /** `"token"\s*:\s*"([A-Za-z0-9]+)"` matches at `i` with capture `t`. */
  ghost predicate PrimaryMatch(s: string, i: nat, t: string)
  {
    exists w1: string, w2: string :: PrimaryMatchWith(s, i, w1, w2, t)
  }

  /** The primary pattern matches at `i` with `w1` and `w2` as the two `\s*`
      and `t` as the capture: the text at `i` reads `"token"`, `w1`, `:`,
      `w2`, `"`, `t`, `"`, one segment after the other. */
  ghost predicate PrimaryMatchWith(s: string, i: nat, w1: string, w2: string, t: string)
  {
    var colon := i + 7 + |w1|;
    var open := colon + 1 + |w2|;
    var close := open + 1 + |t|;
    close < |s| && IsToken(t) && AllIn(w1, Space) && AllIn(w2, Space) &&
    s[i..i + 7] == PrimaryKey && s[i + 7..colon] == w1 && s[colon] == ':' &&
    s[colon + 1..open] == w2 && s[open] == '"' && s[open + 1..close] == t && s[close] == '"'
  }

  /** `[?&]token=([A-Za-z0-9]+)` matches at `i` with capture `t`; the greedy
      `+` takes the whole alphanumeric run. */
  ghost predicate FallbackMatch(s: string, i: nat, t: string)
  {
    var end := i + 7 + |t|;
    end <= |s| && (s[i] == '?' || s[i] == '&') && s[i + 1..i + 7] == FallbackKey &&
    IsToken(t) && s[i + 7..end] == t && (end == |s| || !IsAlnum(s[end]))
  }

  /** What `preg_match` reports: the leftmost match. */
  ghost predicate LeftmostPrimary(s: string, i: nat, t: string)
  {
    PrimaryMatch(s, i, t) && forall j: nat, u: string :: j < i ==> !PrimaryMatch(s, j, u)
  }

  ghost predicate LeftmostFallback(s: string, i: nat, t: string)
  {
    FallbackMatch(s, i, t) && forall j: nat, u: string :: j < i ==> !FallbackMatch(s, j, u)
  }

  // ---------------------------------------------------------------------
  // The scanners.
  // ---------------------------------------------------------------------

  /** Attempt of the primary pattern at position `i`.  Neither `\s*` nor the
      capture can give back characters to let the rest match, since the
      character that must follow each of them is outside its class. */
  function PrimaryAt(s: string, i: nat): Option<string>
  {
    if i + 7 > |s| || s[i..i + 7] != PrimaryKey then None else PrimaryColon(s, i + 7)
  }

  /** `\s*:` from `p` on, then the rest of the primary pattern. */
  function PrimaryColon(s: string, p: nat): Option<string>
    requires p <= |s|
  {
    var colon := p + RunLength(s, p, Space);
    if colon == |s| || s[colon] != ':' then None else PrimaryOpen(s, colon + 1)
  }

  /** `\s*"` from `p` on, then the capture. */
  function PrimaryOpen(s: string, p: nat): Option<string>
    requires p <= |s|
  {
    var open := p + RunLength(s, p, Space);
    if open == |s| || s[open] != '"' then None else PrimaryCapture(s, open + 1)
  }

  /** `([A-Za-z0-9]+)"` from `p` on. */
  function PrimaryCapture(s: string, p: nat): Option<string>
    requires p <= |s|
  {
    var n := RunLength(s, p, Alnum);
    if n == 0 || p + n == |s| || s[p + n] != '"' then None else Some(s[p..p + n])
  }

  /** Attempt of the fallback pattern at position `i`. */
  function FallbackAt(s: string, i: nat): Option<string>
  {
    if i + 7 > |s| || !(s[i] == '?' || s[i] == '&') || s[i + 1..i + 7] != FallbackKey then None
    else
      var n := RunLength(s, i + 7, Alnum);
      if n == 0 then None else Some(s[i + 7..i + 7 + n])
  }

  /** The first position from `from` on where `at` succeeds. */
  function Leftmost(s: string, from: nat, at: (string, nat) -> Option<string>): (r: Option<nat>)
    requires from <= |s|
    ensures r.Some? ==> from <= r.value <= |s| && at(s, r.value).Some?
    ensures r.Some? ==> forall j :: from <= j < r.value ==> at(s, j).None?
    ensures r.None? ==> forall j :: from <= j <= |s| ==> at(s, j).None?
    decreases |s| - from
  {
    if at(s, from).Some? then Some(from)
    else if from == |s| then None
    else Leftmost(s, from + 1, at)
  }

  /** The capture of a `preg_match` call with the primary pattern. */
  function PregPrimary(s: string): Option<string>
  {
    match Leftmost(s, 0, PrimaryAt)
    case None => None
    case Some(i) => PrimaryAt(s, i)
  }

  /** The capture of a `preg_match` call with the fallback pattern. */
  function PregFallback(s: string): Option<string>
  {
    match Leftmost(s, 0, FallbackAt)
    case None => None
    case Some(i) => FallbackAt(s, i)
  }

  /** Lines 62-68: the fallback is tried when the primary capture is missing
      or PHP-empty, and a missing or falsy final capture means no token. */
  function ExtractToken(html: string): (r: Option<string>)
    ensures r.Some? ==> IsToken(r.value) && Truthy(r.value)
  {
    var primary := PregPrimary(html);
    var matched := if primary.Some? && Truthy(primary.value) then primary else PregFallback(html);
    if matched.Some? && Truthy(matched.value) then
      PregCaptureIsToken(html);
      matched
    else None
  }

  // ---------------------------------------------------------------------
  // The scanners agree with the patterns.
  // ---------------------------------------------------------------------

  lemma PrimaryAtSound(s: string, i: nat)
    requires PrimaryAt(s, i).Some?
    ensures PrimaryMatch(s, i, PrimaryAt(s, i).value)
  {
    var colon := i + 7 + RunLength(s, i + 7, Space);
    var open := colon + 1 + RunLength(s, colon + 1, Space);
    assert PrimaryMatchWith(s, i, s[i + 7..colon], s[colon + 1..open], PrimaryAt(s, i).value);
  }

  lemma PrimaryAtComplete(s: string, i: nat, t: string)
    requires PrimaryMatch(s, i, t)
    ensures PrimaryAt(s, i) == Some(t)
  {
    var w1, w2 :| PrimaryMatchWith(s, i, w1, w2, t);
    PrimaryAtCompleteWith(s, i, w1, w2, t);
  }

  lemma PrimaryAtCompleteWith(s: string, i: nat, w1: string, w2: string, t: string)
    requires PrimaryMatchWith(s, i, w1, w2, t)
    ensures PrimaryAt(s, i) == Some(t)
  {
    var colon := i + 7 + |w1|;
    var open := colon + 1 + |w2|;
    PrimaryCaptureIs(s, open + 1, t);
    PrimarySpacesThen(s, colon + 1, w2, '"', t);
    PrimarySpacesThen(s, i + 7, w1, ':', t);
  }

  lemma PrimaryCaptureIs(s: string, p: nat, t: string)
    requires p + |t| < |s| && IsToken(t) && s[p..p + |t|] == t && s[p + |t|] == '"'
    ensures PrimaryCapture(s, p) == Some(t)
  {
    RunLengthIs(s, p, |t|, Alnum);
  }

  /** Spaces `w` then `c` at `p`, where `c` is the colon or the opening
      quote: the stage that reads them hands over to the next one. */
  lemma PrimarySpacesThen(s: string, p: nat, w: string, c: char, t: string)
    requires c == ':' || c == '"'
    requires p + |w| < |s| && AllIn(w, Space) && s[p..p + |w|] == w && s[p + |w|] == c
    requires c == '"' ==> PrimaryCapture(s, p + |w| + 1) == Some(t)
    requires c == ':' ==> PrimaryOpen(s, p + |w| + 1) == Some(t)
    ensures c == '"' ==> PrimaryOpen(s, p) == Some(t)
    ensures c == ':' ==> PrimaryColon(s, p) == Some(t)
  {
    RunLengthIs(s, p, |w|, Space);
  }

  /** The primary scanner succeeds at `i` with `t` exactly when the pattern
      matches there with capture `t`. */
  lemma PrimaryAtIffMatch(s: string, i: nat, t: string)
    ensures PrimaryAt(s, i) == Some(t) <==> PrimaryMatch(s, i, t)
  {
    if PrimaryAt(s, i) == Some(t) { PrimaryAtSound(s, i); }
    if PrimaryMatch(s, i, t) { PrimaryAtComplete(s, i, t); }
  }

  /** The fallback scanner succeeds at `i` with `t` exactly when the pattern
      matches there with capture `t`. */
  lemma FallbackAtIffMatch(s: string, i: nat, t: string)
    ensures FallbackAt(s, i) == Some(t) <==> FallbackMatch(s, i, t)
  {
    if FallbackMatch(s, i, t) {
      RunLengthIs(s, i + 7, |t|, Alnum);
    }
  }

  lemma PregCaptureIsToken(s: string)
    ensures PregPrimary(s).Some? ==> IsToken(PregPrimary(s).value)
    ensures PregFallback(s).Some? ==> IsToken(PregFallback(s).value)
  {
    var a := Leftmost(s, 0, PrimaryAt);
    if a.Some? { PrimaryAtSound(s, a.value); }
    var b := Leftmost(s, 0, FallbackAt);
    if b.Some? { FallbackAtIffMatch(s, b.value, FallbackAt(s, b.value).value); }
  }

  /** `preg_match` with the primary pattern captures `t` exactly when the
      leftmost match of the pattern captures `t`. */
  lemma PregPrimaryIsLeftmost(s: string, t: string)
    ensures PregPrimary(s) == Some(t) <==> exists i :: LeftmostPrimary(s, i, t)
  {
    if PregPrimary(s) == Some(t) {
      PregPrimaryFound(s, t);
    }
    if i :| LeftmostPrimary(s, i, t) {
      LeftmostPrimaryFound(s, i, t);
    }
  }

  lemma PregPrimaryFound(s: string, t: string)
    requires PregPrimary(s) == Some(t)
    ensures Leftmost(s, 0, PrimaryAt).Some? && LeftmostPrimary(s, Leftmost(s, 0, PrimaryAt).value, t)
  {
    var a := Leftmost(s, 0, PrimaryAt);
    PrimaryAtIffMatch(s, a.value, t);
    forall j: nat, u: string | j < a.value ensures !PrimaryMatch(s, j, u) {
      PrimaryAtIffMatch(s, j, u);
    }
  }

  lemma LeftmostPrimaryFound(s: string, i: nat, t: string)
    requires LeftmostPrimary(s, i, t)
    ensures PregPrimary(s) == Some(t)
  {
    var a := Leftmost(s, 0, PrimaryAt);
    PrimaryAtIffMatch(s, i, t);
    if a.Some? && a.value < i {
      PrimaryAtSound(s, a.value);
    }
  }

  /** `preg_match` with the fallback pattern captures `t` exactly when the
      leftmost match of the pattern captures `t`. */
  lemma PregFallbackIsLeftmost(s: string, t: string)
    ensures PregFallback(s) == Some(t) <==> exists i :: LeftmostFallback(s, i, t)
  {
    if PregFallback(s) == Some(t) {
      PregFallbackFound(s, t);
    }
    if i :| LeftmostFallback(s, i, t) {
      LeftmostFallbackFound(s, i, t);
    }
  }

  lemma PregFallbackFound(s: string, t: string)
    requires PregFallback(s) == Some(t)
    ensures Leftmost(s, 0, FallbackAt).Some? && LeftmostFallback(s, Leftmost(s, 0, FallbackAt).value, t)
  {
    var b := Leftmost(s, 0, FallbackAt);
    FallbackAtIffMatch(s, b.value, t);
    forall j: nat, u: string | j < b.value ensures !FallbackMatch(s, j, u) {
      FallbackAtIffMatch(s, j, u);
    }
  }

  lemma LeftmostFallbackFound(s: string, i: nat, t: string)
    requires LeftmostFallback(s, i, t)
    ensures PregFallback(s) == Some(t)
  {
    var b := Leftmost(s, 0, FallbackAt);
    FallbackAtIffMatch(s, i, t);
    if b.Some? && b.value < i {
      FallbackAtIffMatch(s, b.value, FallbackAt(s, b.value).value);
    }
  }

  // ---------------------------------------------------------------------
  // What the controller does with the captures.
  // ---------------------------------------------------------------------

  /** When the leftmost primary match captures anything but "0", that is the
      token, and the fallback pattern plays no part. */
  lemma TokenFromPrimary(s: string, i: nat, t: string)
    requires LeftmostPrimary(s, i, t) && t != "0"
    ensures ExtractToken(s) == Some(t)
  {
    PregPrimaryIsLeftmost(s, t);
  }

  /** The primary `preg_match` yields nothing usable (no match, or the
      capture "0") exactly when no leftmost primary match captures anything
      but "0". */
  lemma PrimaryUnusable(s: string)
    ensures (PregPrimary(s).None? || PregPrimary(s) == Some("0")) <==>
      forall i: nat, t: string :: LeftmostPrimary(s, i, t) ==> t == "0"
  {
    var p := PregPrimary(s);
    if p.Some? { PregPrimaryIsLeftmost(s, p.value); }
    forall i: nat, t: string | LeftmostPrimary(s, i, t) ensures p == Some(t) {
      PregPrimaryIsLeftmost(s, t);
    }
  }

  /** The same for the fallback `preg_match`. */
  lemma FallbackUnusable(s: string)
    ensures (PregFallback(s).None? || PregFallback(s) == Some("0")) <==>
      forall i: nat, t: string :: LeftmostFallback(s, i, t) ==> t == "0"
  {
    var f := PregFallback(s);
    if f.Some? { PregFallbackIsLeftmost(s, f.value); }
    forall i: nat, t: string | LeftmostFallback(s, i, t) ensures f == Some(t) {
      PregFallbackIsLeftmost(s, t);
    }
  }

  /** When the primary pattern does not match, or its leftmost capture is the
      falsy "0", the token is the leftmost fallback capture unless that is
      "0" too. */
  lemma TokenFromFallback(s: string, i: nat, t: string)
    requires forall j: nat, u: string :: LeftmostPrimary(s, j, u) ==> u == "0"
    requires LeftmostFallback(s, i, t) && t != "0"
    ensures ExtractToken(s) == Some(t)
  {
    PrimaryUnusable(s);
    PregFallbackIsLeftmost(s, t);
  }

  /** No token at all exactly when neither leftmost capture is usable. */
  lemma TokenMissing(s: string)
    ensures ExtractToken(s).None? <==>
      (forall i: nat, t: string :: LeftmostPrimary(s, i, t) ==> t == "0") &&
      (forall i: nat, t: string :: LeftmostFallback(s, i, t) ==> t == "0")
  {
    ExtractTokenNone(s);
    PrimaryUnusable(s);
    FallbackUnusable(s);
  }

  /** No token exactly when both captures are missing or "0". */
  lemma ExtractTokenNone(s: string)
    ensures ExtractToken(s).None? <==>
      (PregPrimary(s).None? || PregPrimary(s) == Some("0")) &&
      (PregFallback(s).None? || PregFallback(s) == Some("0"))
  {
    PregCaptureIsToken(s);
  }
}
