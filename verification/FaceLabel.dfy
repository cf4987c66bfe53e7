/** The names an owner gives to face groups (src/faces.rs:609-619, migrations/0007_face_indexing.sql:7-13). */
module FaceLabel {
  import opened Common

  const MAX_LABEL_CHARS: nat := 80

  /** Unicode white space, which trimming removes. */
  predicate White(c: char) {
    || '\t' <= c <= '\r' || c == ' ' || c == '\U{85}' || c == '\U{A0}' || c == '\U{1680}'
    || '\U{2000}' <= c <= '\U{200A}' || c == '\U{2028}' || c == '\U{2029}' || c == '\U{202F}' || c == '\U{205F}'
    || c == '\U{3000}'
  }

  function TrimFront(s: string): string {
    if s != "" && White(s[0]) then TrimFront(s[1..]) else s
  }

  function TrimBack(s: string): string {
    if s != "" && White(s[|s| - 1]) then TrimBack(s[..|s| - 1]) else s
  }

  function Trim(s: string): string {
    TrimBack(TrimFront(s))
  }

  /** `normalize_label`: no label, or the trimmed one if it has 1 to 80 characters. */
  function NormalizeLabel(text: Option<string>): Result<Option<string>, string> {
    if text.None? then Ok(None)
    else
      var trimmed := Trim(text.value);
      if trimmed == "" || |trimmed| > MAX_LABEL_CHARS then Err("bad_request") else Ok(Some(trimmed))
  }

  predicate WhiteIn(s: string, from: nat, to: nat)
    requires to <= |s|
  {
    forall k :: from <= k < to ==> White(s[k])
  }

  /** Nothing to trim, and of a length the table accepts. */
  predicate GoodLabel(s: string) {
    0 < |s| <= MAX_LABEL_CHARS && !White(s[0]) && !White(s[|s| - 1])
  }

  /** `s[i..j]` is what is left when white space goes at both ends. */
  predicate Core(s: string, i: nat, j: nat) {
    && i <= j <= |s| && WhiteIn(s, 0, i) && WhiteIn(s, j, |s|)
    && (i < j ==> !White(s[i]) && !White(s[j - 1]))
  }

  lemma {:induction false} FrontCut(s: string) returns (i: nat)
    ensures i <= |s| && WhiteIn(s, 0, i) && TrimFront(s) == s[i..] && (i < |s| ==> !White(s[i]))
  {
    i := 0;
    if s != "" && White(s[0]) {
      i := FrontCut(s[1..]);
      assert forall k :: 0 < k < i + 1 ==> s[k] == s[1..][k - 1];
      i := i + 1;
    }
  }

  lemma {:induction false} BackCut(s: string) returns (j: nat)
    ensures j <= |s| && WhiteIn(s, j, |s|) && TrimBack(s) == s[..j] && (j > 0 ==> !White(s[j - 1]))
  {
    j := |s|;
    if s != "" && White(s[|s| - 1]) {
      j := BackCut(s[..|s| - 1]);
      assert forall k :: j <= k < |s| - 1 ==> s[k] == s[..|s| - 1][k];
    }
  }

  lemma TrimIsCore(s: string) returns (i: nat, j: nat)
    ensures Core(s, i, j) && Trim(s) == s[i..j]
  {
    i := FrontCut(s);
    var rest := s[i..];
    var n := BackCut(rest);
    j := i + n;
    assert forall k :: j <= k < |s| ==> s[k] == rest[k - i];
    assert n > 0 ==> s[j - 1] == rest[n - 1];
  }

  lemma OneCore(s: string, i: nat, j: nat, a: nat, b: nat)
    requires Core(s, i, j) && Core(s, a, b)
    ensures s[i..j] == s[a..b]
  {
  }

  /** Exactly labels whose core is empty or longer than 80 characters are refused; of others the core is stored. */
  lemma RefusedIff(s: string, i: nat, j: nat)
    requires Core(s, i, j)
    ensures NormalizeLabel(Some(s)).Err? <==> i == j || j - i > MAX_LABEL_CHARS
    ensures NormalizeLabel(Some(s)).Ok? ==> NormalizeLabel(Some(s)).value == Some(s[i..j])
  {
    var a, b := TrimIsCore(s);
    OneCore(s, i, j, a, b);
  }

  /** What is stored is trimmed and has 1 to 80 characters, as the table demands; exactly such labels are stored
      unchanged. */
  lemma NormalizedIsGood(s: string)
    ensures var r := NormalizeLabel(Some(s)); r.Ok? ==> r.value.Some? && GoodLabel(r.value.value)
    ensures NormalizeLabel(Some(s)) == Ok(Some(s)) <==> GoodLabel(s)
  {
    var i, j := TrimIsCore(s);
    if GoodLabel(s) {
      OneCore(s, i, j, 0, |s|);
    }
  }
}
