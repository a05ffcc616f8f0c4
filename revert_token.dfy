/**
 * The revert-token classifier of the `rollback` task: three anchored
 * patterns tried in a fixed order, the first match deciding the kind of
 * rollback target, and the `git reset --hard` target built from it.
 * Character classes are ASCII and `$` means the exact end of the token.
 */
module RevertToken {
  import opened Aborts

  datatype Kind = CommitCount | Version | Sha

  predicate IsDigit(c: char) { '0' <= c <= '9' }

  predicate IsLowerHex(c: char) { IsDigit(c) || 'a' <= c <= 'f' }

  /** `[0-9]*` */
  predicate AllDigits(s: string) { forall k | 0 <= k < |s| :: IsDigit(s[k]) }

  /**
   * `\d+`: a digit run inside the version pattern. Over ASCII it is also the
   * whole language of the commit-count pattern `^[0-9]+$`, so the classifier
   * uses it for both.
   */
  predicate Number(s: string) { |s| > 0 && AllDigits(s) }

  /** The language of `^\d+\.\d+\.\d+$`, read off the pattern: three digit runs and two dots. */
  ghost predicate VersionPattern(s: string) {
    exists i, j | 0 <= i < j < |s| ::
      s[i] == '.' && s[j] == '.' && Number(s[..i]) && Number(s[i + 1..j]) && Number(s[j + 1..])
  }

  /** The language of `^[0-9a-f]{5,40}$`. */
  predicate ShaPattern(s: string) {
    5 <= |s| <= 40 && forall k | 0 <= k < |s| :: IsLowerHex(s[k])
  }

  /**
   * Left-to-right matcher for the version pattern: `dots` separators have
   * been consumed, and `digits` says whether the current run has a digit yet.
   */
  function ScanVersion(s: string, dots: nat, digits: bool): bool
    requires dots <= 2
    decreases |s|
  {
    if s == [] then dots == 2 && digits
    else if IsDigit(s[0]) then ScanVersion(s[1..], dots, true)
    else if s[0] == '.' && digits && dots < 2 then ScanVersion(s[1..], dots + 1, false)
    else false
  }

  /** The matcher accepts exactly the language of the version pattern. */
  function MatchesVersion(s: string): (b: bool)
    ensures b <==> VersionPattern(s)
  {
    ScanIsPattern(s);
    ScanVersion(s, 0, false)
  }

  /** Length of the leading run of digits of `s`. */
  ghost function DigitRun(s: string): (k: nat)
    ensures k <= |s| && AllDigits(s[..k])
    ensures k < |s| ==> !IsDigit(s[k])
    decreases |s|
  {
    if s == [] || !IsDigit(s[0]) then 0
    else
      var k := 1 + DigitRun(s[1..]);
      assert forall n | 1 <= n < k :: s[..k][n] == s[1..][..k - 1][n - 1];
      k
  }

  /** A digit prefix that ends at a non-digit (or at the end) is the leading run. */
  lemma {:induction false} DigitRunAt(s: string, i: nat)
    requires i <= |s| && AllDigits(s[..i]) && (i < |s| ==> !IsDigit(s[i]))
    ensures DigitRun(s) == i
    decreases i
  {
    if i > 0 {
      assert IsDigit(s[..i][0]);
      var t := s[1..];
      assert t[..i - 1] == s[..i][1..];
      DigitRunAt(t, i - 1);
    }
  }

  /** The scanner reads a whole digit run, then needs a dot or the end. */
  lemma {:induction false} ScanRun(s: string, dots: nat, digits: bool)
    requires dots <= 2
    ensures var k := DigitRun(s);
      ScanVersion(s, dots, digits) <==>
        (digits || k > 0) &&
        if k == |s| then dots == 2
        else s[k] == '.' && dots < 2 && ScanVersion(s[k + 1..], dots + 1, false)
    decreases |s|
  {
    if s != [] && IsDigit(s[0]) {
      var t := s[1..];
      ScanRun(t, dots, true);
      var k := DigitRun(t);
      assert DigitRun(s) == k + 1;
      if k < |t| {
        assert t[k] == s[k + 1];
        assert t[k + 1..] == s[k + 2..];
      }
    }
  }

  lemma ScanSound(s: string)
    requires ScanVersion(s, 0, false)
    ensures VersionPattern(s)
  {
    ScanRun(s, 0, false);
    var i := DigitRun(s);
    var t1 := s[i + 1..];
    ScanRun(t1, 1, false);
    var k2 := DigitRun(t1);
    var t2 := t1[k2 + 1..];
    ScanRun(t2, 2, false);
    var j := i + 1 + k2;
    assert s[j] == t1[k2];
    assert s[i + 1..j] == t1[..k2];
    assert s[j + 1..] == t2 && t2[..DigitRun(t2)] == t2;
    assert 0 <= i < j < |s| && s[i] == '.' && s[j] == '.' && Number(s[..i])
      && Number(s[i + 1..j]) && Number(s[j + 1..]);
  }

  lemma ScanComplete(s: string)
    requires VersionPattern(s)
    ensures ScanVersion(s, 0, false)
  {
    var i, j :| 0 <= i < j < |s| && s[i] == '.' && s[j] == '.' && Number(s[..i])
      && Number(s[i + 1..j]) && Number(s[j + 1..]);
    ScanCompleteAt(s, i, j);
  }

  lemma ScanCompleteAt(s: string, i: nat, j: nat)
    requires i < j < |s| && s[i] == '.' && s[j] == '.'
    requires Number(s[..i]) && Number(s[i + 1..j]) && Number(s[j + 1..])
    ensures ScanVersion(s, 0, false)
  {
    var t1 := s[i + 1..];
    var k2 := j - (i + 1);
    assert t1[k2 + 1..] == s[j + 1..];
    ScanLastRun(t1[k2 + 1..]);
    assert t1[..k2] == s[i + 1..j] && t1[k2] == s[j];
    ScanDotRun(t1, k2, 1);
    ScanDotRun(s, i, 0);
  }

  lemma ScanLastRun(t: string)
    requires Number(t)
    ensures ScanVersion(t, 2, false)
  {
    assert t[..|t|] == t;
    DigitRunAt(t, |t|);
    ScanRun(t, 2, false);
  }

  lemma ScanDotRun(t: string, k: nat, dots: nat)
    requires dots < 2 && 0 < k < |t| && t[k] == '.' && Number(t[..k])
    requires ScanVersion(t[k + 1..], dots + 1, false)
    ensures ScanVersion(t, dots, false)
  {
    DigitRunAt(t, k);
    ScanRun(t, dots, false);
  }

  lemma ScanIsPattern(s: string)
    ensures ScanVersion(s, 0, false) <==> VersionPattern(s)
  {
    if ScanVersion(s, 0, false) {
      ScanSound(s);
    }
    if VersionPattern(s) {
      ScanComplete(s);
    }
  }

  /**
   * How the three patterns overlap: a version token matches neither of the
   * others, and the hex and digit patterns share exactly the all-digit
   * tokens of 5 to 40 characters.
   */
  lemma PatternOverlap(s: string)
    ensures VersionPattern(s) ==> !ShaPattern(s) && !Number(s)
    ensures ShaPattern(s) && Number(s) <==> Number(s) && 5 <= |s| <= 40
  {
    if VersionPattern(s) {
      var i, j :| 0 <= i < j < |s| && s[i] == '.' && s[j] == '.' && Number(s[..i])
        && Number(s[i + 1..j]) && Number(s[j + 1..]);
      assert !IsLowerHex(s[i]);
    }
  }

  /**
   * The classifier of the `rollback` task: version, then hex SHA, then
   * commit count, the first match winning; anything else aborts. Stated
   * without the precedence: each kind is the set of tokens given below.
   */
  function Classify(token: string): (r: Result<Kind>)
    ensures r == Ok(Version) <==> VersionPattern(token)
    ensures r == Ok(Sha) <==> ShaPattern(token)
    ensures r == Ok(CommitCount) <==> Number(token) && (|token| < 5 || 40 < |token|)
    ensures r.Aborted? <==> !VersionPattern(token) && !ShaPattern(token) && !Number(token)
    ensures r.Aborted? ==> r.reason == InvalidRevertTarget
  {
    PatternOverlap(token);
    if MatchesVersion(token) then Ok(Version)
    else if ShaPattern(token) then Ok(Sha)
    else if Number(token) then Ok(CommitCount)
    else Aborted(InvalidRevertTarget)
  }

  /** The argument of `git reset --hard` for a classified token. */
  function ResetTarget(kind: Kind, token: string): string {
    match kind
    case CommitCount => "HEAD~" + token
    case Version | Sha => token
  }

  /** Characters an accepted token can hold: lower-case hex digits and dots, a hex digit first. */
  lemma {:induction false} ScanAlphabet(s: string, dots: nat, digits: bool)
    requires dots <= 2 && ScanVersion(s, dots, digits)
    ensures forall k | 0 <= k < |s| :: IsDigit(s[k]) || s[k] == '.'
    decreases |s|
  {
    if s != [] {
      var t := s[1..];
      if IsDigit(s[0]) {
        ScanAlphabet(t, dots, true);
      } else {
        ScanAlphabet(t, dots + 1, false);
      }
      assert forall k | 1 <= k < |s| :: s[k] == t[k - 1];
    }
  }

  lemma AcceptedAlphabet(token: string)
    requires Classify(token).Ok?
    ensures |token| > 0 && IsLowerHex(token[0])
    ensures forall k | 0 <= k < |token| :: IsLowerHex(token[k]) || token[k] == '.'
  {
    if MatchesVersion(token) {
      ScanAlphabet(token, 0, false);
    }
  }

  /**
   * A character of a reset target. None is special to the remote shell except
   * `~`, which is expanded only at the start of a word; a target never starts
   * with it (it starts with `H` or a hex digit, as `ResetTargetShellSafe` states).
   */
  predicate ShellSafe(c: char) { IsLowerHex(c) || c == '.' || c == 'H' || c == 'E' || c == 'A' || c == 'D' || c == '~' }

  /** The reset target of an accepted token never carries a shell metacharacter. */
  lemma ResetTargetShellSafe(token: string)
    requires Classify(token).Ok?
    ensures var target := ResetTarget(Classify(token).value, token);
      |target| > 0 && (target[0] == 'H' || IsLowerHex(target[0])) &&
      forall k | 0 <= k < |target| :: ShellSafe(target[k])
  {
    AcceptedAlphabet(token);
    var target := ResetTarget(Classify(token).value, token);
    if Classify(token).value == CommitCount {
      assert forall k | 5 <= k < |target| :: target[k] == token[k - 5];
    }
  }

  /** The reset target determines the token, so no two accepted tokens reset to the same place. */
  lemma ResetTargetUnambiguous(a: string, b: string)
    requires Classify(a).Ok? && Classify(b).Ok?
    requires ResetTarget(Classify(a).value, a) == ResetTarget(Classify(b).value, b)
    ensures a == b && Classify(a) == Classify(b)
  {
    AcceptedAlphabet(a);
    AcceptedAlphabet(b);
    var ka, kb := Classify(a).value, Classify(b).value;
    if ka == CommitCount && kb == CommitCount {
      assert a == ("HEAD~" + a)[5..];
    }
  }
}
