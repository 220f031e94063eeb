/**
 * The JavaScript string operations the views rely on: `String.replace` with a string pattern
 * (only the first occurrence is replaced), `slice(-8)` and `trim() !== ""`.
 */
module Text {

  /** The position of the first c in s, or |s| when there is none. */
  function FirstIndexOf(s: string, c: char): (k: nat)
    ensures k <= |s|
    ensures forall j :: 0 <= j < k ==> s[j] != c
    ensures k < |s| ==> s[k] == c
    ensures k == |s| <==> c !in s
  {
    if s == [] then 0
    else if s[0] == c then 0
    else
      var k := 1 + FirstIndexOf(s[1..], c);
      assert forall j :: 1 <= j < k ==> s[j] == s[1..][j - 1];
      assert c in s ==> c in s[1..] by {
        if c in s {
          var m :| 0 <= m < |s| && s[m] == c;
          assert s[1..][m - 1] == s[m];
        }
      }
      k
  }

  /** `s.replace("_", " ")`: the first underscore, if any, becomes a space. */
  function ReplaceFirstUnderscore(s: string): (r: string)
    ensures |r| == |s|
    ensures '_' !in s ==> r == s
    ensures '_' in s ==>
      exists k :: 0 <= k < |s| && s[k] == '_' && '_' !in s[..k] && r == s[..k] + " " + s[k + 1..]
  {
    var k := FirstIndexOf(s, '_');
    if k == |s| then s
    else
      assert '_' !in s[..k] by {
        forall j | 0 <= j < k ensures s[..k][j] != '_' {
          assert s[..k][j] == s[j];
        }
      }
      s[..k] + " " + s[k + 1..]
  }

  /** The underscore replaced is the first one. */
  lemma ReplaceFirstAt(s: string, k: nat)
    requires k < |s| && s[k] == '_' && '_' !in s[..k]
    ensures ReplaceFirstUnderscore(s) == s[..k] + " " + s[k + 1..]
  {
    forall j | 0 <= j < k ensures s[j] != '_' {
      assert s[..k][j] == s[j];
    }
    assert FirstIndexOf(s, '_') == k;
  }

  /** `String(id).slice(-8)`: the last eight characters, or the whole string when it is shorter. */
  function LastEight(s: string): (r: string)
    ensures |r| == if |s| < 8 then |s| else 8
    ensures s == s[..|s| - |r|] + r
  {
    if |s| <= 8 then s else s[|s| - 8..]
  }

  /** The characters JavaScript's `String.prototype.trim` removes (WhiteSpace and LineTerminator). */
  predicate IsJsSpace(c: char)
  {
    c == '\t' || c == '\n' || c == '\U{000B}' || c == '\U{000C}' || c == '\r' || c == ' '
    || c == '\U{00A0}' || c == '\U{1680}' || ('\U{2000}' <= c <= '\U{200A}')
    || c == '\U{2028}' || c == '\U{2029}' || c == '\U{202F}' || c == '\U{205F}'
    || c == '\U{3000}' || c == '\U{FEFF}'
  }

  /** `s.trim() === ""`: every character is white space (the empty string included). */
  predicate IsBlank(s: string)
  {
    forall i :: 0 <= i < |s| ==> IsJsSpace(s[i])
  }
}
