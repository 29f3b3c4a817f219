/** Where stage artifacts live: one key prefix per stage type and attempt. */
module StageKeys {
  function Digits(n: nat): string {
    if n < 10 then [(48 + n) as char] else Digits(n / 10) + [(48 + n % 10) as char]
  }

  function Padded(n: nat): string {
    var d := Digits(n);
    if |d| == 1 then "000" + d else if |d| == 2 then "00" + d else if |d| == 3 then "0" + d else d
  }

  /** `stage_artifact_prefix`. */
  function Prefix(stage: string, attempt: nat): string {
    if stage == "ball_tracking" then "ball" + "/" + (("attempt-" + Padded(attempt)) + "/" + "")
    else "stages" + "/" + (stage + "/" + (("attempt-" + Padded(attempt)) + "/" + ""))
  }

  predicate NoSlash(s: string) { forall i :: 0 <= i < |s| ==> s[i] != '/' }

  predicate Lower(c: char) { 'a' <= c <= 'z' }

  /** The pattern stage types are held to: a lower-case letter, then up to 63 letters, digits or
      underscores. */
  predicate ValidStage(stage: string) {
    1 <= |stage| <= 64 && Lower(stage[0])
    && forall i :: 1 <= i < |stage| ==> Lower(stage[i]) || '0' <= stage[i] <= '9' || stage[i] == '_'
  }

  function Value(s: string): int {
    if s == "" then 0 else Value(s[..|s| - 1]) * 10 + (s[|s| - 1] as int - 48)
  }

  lemma {:induction false} DigitsValue(n: nat)
    ensures Value(Digits(n)) == n && forall i :: 0 <= i < |Digits(n)| ==> '0' <= Digits(n)[i] <= '9'
  {
    var d := Digits(n);
    if n >= 10 {
      DigitsValue(n / 10);
      assert d[..|d| - 1] == Digits(n / 10);
    } else {
      assert d[..0] == "";
    }
  }

  lemma {:induction false} LeadingZero(s: string)
    ensures Value("0" + s) == Value(s)
  {
    if s == "" {
      assert ("0" + s)[..0] == "";
    } else {
      assert ("0" + s)[..|s|] == "0" + s[..|s| - 1];
      LeadingZero(s[..|s| - 1]);
    }
  }

  /** Putting one zero in front changes neither the value nor the absence of slashes. */
  lemma ZeroInFront(s: string, n: nat)
    requires Value(s) == n && NoSlash(s)
    ensures Value("0" + s) == n && NoSlash("0" + s)
  {
    LeadingZero(s);
  }

  lemma PaddedValue(n: nat)
    ensures Value(Padded(n)) == n && NoSlash(Padded(n))
  {
    var d := Digits(n);
    DigitsValue(n);
    assert NoSlash(d);
    hide Value, NoSlash, Digits;
    ZeroInFront(d, n);
    ZeroInFront("0" + d, n);
    ZeroInFront("0" + ("0" + d), n);
    assert "0" + ("0" + d) == "00" + d;
    assert "0" + ("0" + ("0" + d)) == "000" + d;
  }

  /** Two slash-separated readings of one key agree on the first segment. */
  lemma SameSegment(key: string, a: string, ra: string, b: string, rb: string)
    requires NoSlash(a) && NoSlash(b) && a + "/" + ra <= key && b + "/" + rb <= key
    ensures a == b && ra <= key[|a| + 1..] && rb <= key[|a| + 1..]
  {
    var x := a + "/" + ra; var y := b + "/" + rb;
    assert forall i :: 0 <= i < |a| ==> x[i] == a[i];
    assert forall i :: 0 <= i < |b| ==> y[i] == b[i];
    assert x[|a|] == '/' && y[|b|] == '/';
    assert key[|a|] == '/' && key[|b|] == '/';
    assert forall i :: 0 <= i < |a| ==> key[i] != '/';
    assert forall i :: 0 <= i < |b| ==> key[i] != '/';
    assert |a| == |b|;
    assert a == key[..|a|] && b == key[..|b|];
    assert ra == x[|a| + 1..] && rb == y[|b| + 1..];
  }

  lemma SameAttempt(rest: string, m: nat, n: nat)
    requires ("attempt-" + Padded(m)) + "/" + "" <= rest && ("attempt-" + Padded(n)) + "/" + "" <= rest
    ensures m == n
  {
    PaddedValue(m);
    PaddedValue(n);
    assert NoSlash("attempt-" + Padded(m)) && NoSlash("attempt-" + Padded(n)) by {
      assert NoSlash("attempt-");
    }
    hide Padded, Value;
    SameSegment(rest, "attempt-" + Padded(m), "", "attempt-" + Padded(n), "");
    assert ("attempt-" + Padded(m))[8..] == Padded(m) && ("attempt-" + Padded(n))[8..] == Padded(n);
  }

  lemma ValidHasNoSlash(stage: string)
    requires ValidStage(stage)
    ensures NoSlash(stage)
  {}

  function Folder(stage: string): string { if stage == "ball_tracking" then "ball" else "stages" }

  function AttemptFolder(attempt: nat): string { ("attempt-" + Padded(attempt)) + "/" + "" }

  function WithinFolder(stage: string, attempt: nat): string {
    if stage == "ball_tracking" then AttemptFolder(attempt) else stage + "/" + AttemptFolder(attempt)
  }

  lemma PrefixShape(stage: string, attempt: nat)
    ensures Prefix(stage, attempt) == Folder(stage) + "/" + WithinFolder(stage, attempt)
  {
    hide Padded;
  }

  /** Readings with the same folder are both of ball tracking or both not. */
  lemma SameFolder(s: string, t: string)
    requires Folder(s) == Folder(t)
    ensures s == "ball_tracking" <==> t == "ball_tracking"
  {
    assert |"ball"| != |"stages"|;
  }

  lemma FolderHasNoSlash(stage: string)
    ensures NoSlash(Folder(stage))
  {}

  lemma SameWithinFolder(rest: string, s: string, m: nat, t: string, n: nat)
    requires ValidStage(s) && ValidStage(t) && Folder(s) == Folder(t)
    requires WithinFolder(s, m) <= rest && WithinFolder(t, n) <= rest
    ensures s == t && m == n
  {
    SameFolder(s, t);
    ValidHasNoSlash(s);
    ValidHasNoSlash(t);
    hide Folder, ValidStage, NoSlash, Padded;
    if s == "ball_tracking" {
      SameAttempt(rest, m, n);
    } else {
      SameSegment(rest, s, AttemptFolder(m), t, AttemptFolder(n));
      SameAttempt(rest[|s| + 1..], m, n);
    }
  }

  /** No key lies under the prefixes of two different attempts: prefixes name their stage and
      attempt, whatever the number of digits. */
  lemma PrefixesAreDisjoint(key: string, s: string, m: nat, t: string, n: nat)
    requires ValidStage(s) && ValidStage(t) && Prefix(s, m) <= key && Prefix(t, n) <= key
    ensures s == t && m == n
  {
    hide *;
    PrefixShape(s, m);
    PrefixShape(t, n);
    FolderHasNoSlash(s);
    FolderHasNoSlash(t);
    SameSegment(key, Folder(s), WithinFolder(s, m), Folder(t), WithinFolder(t, n));
    SameWithinFolder(key[|Folder(s)| + 1..], s, m, t, n);
  }
}
