/** The few string operations the modelled code uses, over ASCII. */
module Text {

  predicate IsSpace(c: char) { c in " \t\n\r" || c as int in {11, 12, 28, 29, 30, 31} }

  /** `s.strip()`. */
  function Strip(s: string): (r: string)
    ensures r != "" ==> !IsSpace(r[0]) && !IsSpace(r[|r| - 1])
    ensures s == "" || (!IsSpace(s[0]) && !IsSpace(s[|s| - 1])) ==> r == s
    decreases |s|
  {
    if s == "" then ""
    else if IsSpace(s[0]) then Strip(s[1..])
    else if IsSpace(s[|s| - 1]) then Strip(s[..|s| - 1])
    else s
  }

  predicate Blank(s: string) { forall i :: 0 <= i < |s| ==> IsSpace(s[i]) }

  /** Whatever blanks surround a text that neither starts nor ends with one, stripping leaves the text. */
  lemma {:induction false} StripRemovesBlanks(a: string, s: string, b: string)
    requires Blank(a) && Blank(b) && (s != "" ==> !IsSpace(s[0]) && !IsSpace(s[|s| - 1]))
    ensures Strip(a + s + b) == s
    decreases |a| + |b|
  {
    var t := a + s + b;
    if a != "" {
      assert t[0] == a[0] && t[1..] == a[1..] + s + b;
      StripRemovesBlanks(a[1..], s, b);
    } else if s == "" && b != "" {
      assert t == b && t[1..] == "" + s + b[1..];
      StripRemovesBlanks("", s, b[1..]);
    } else if b != "" {
      var n := |t| - 1;
      assert t[0] == s[0] && t[n] == b[|b| - 1] && t[..n] == a + s + b[..|b| - 1];
      StripRemovesBlanks(a, s, b[..|b| - 1]);
    } else {
      assert t == s;
    }
  }

  function LowerChar(c: char): char {
    if 'A' <= c <= 'Z' then (c as int + 32) as char else c
  }

  /** `s.lower()`. */
  function Lower(s: string): (r: string)
    ensures |r| == |s|
    ensures (forall i :: 0 <= i < |s| ==> !('A' <= s[i] <= 'Z')) ==> r == s
  {
    seq(|s|, i requires 0 <= i < |s| => LowerChar(s[i]))
  }

  /** Each capital becomes the small letter at the same place of the alphabet. */
  lemma LowerAlphabet(s: string, i: nat)
    requires i < |s|
    ensures var capitals, smalls := "ABCDEFGHIJKLMNOPQRSTUVWXYZ", "abcdefghijklmnopqrstuvwxyz";
            (forall k :: 0 <= k < 26 && s[i] == capitals[k] ==> Lower(s)[i] == smalls[k]) &&
            (s[i] !in capitals ==> Lower(s)[i] == s[i])
  {
    var capitals, smalls := "ABCDEFGHIJKLMNOPQRSTUVWXYZ", "abcdefghijklmnopqrstuvwxyz";
    assert forall k :: 0 <= k < 26 ==> capitals[k] as int == 65 + k && smalls[k] as int == 97 + k;
    if 'A' <= s[i] <= 'Z' { assert s[i] == capitals[s[i] as int - 65]; }
  }

  predicate StartsWith(s: string, prefix: string) { |s| >= |prefix| && s[..|prefix|] == prefix }

  predicate EndsWith(s: string, suffix: string) {
    |s| >= |suffix| && s[|s| - |suffix|..] == suffix
  }

  lemma StartsWithFirst(s: string, prefix: string)
    requires StartsWith(s, prefix) && prefix != ""
    ensures s[0] == prefix[0]
  {
    assert s[..|prefix|][0] == prefix[0];
  }

  lemma EndsWithLast(s: string, suffix: string)
    requires EndsWith(s, suffix) && suffix != ""
    ensures s[|s| - 1] == suffix[|suffix| - 1]
  {
    assert s[|s| - |suffix|..][|suffix| - 1] == suffix[|suffix| - 1];
  }
}
