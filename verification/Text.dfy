/** Optional values, user ids, and the string operations of the service that its rules depend on. */
module Text {
  type UserId = nat

  datatype Option<+T> = None | Some(value: T) {
    function GetOr(default: T): T {
      match this
      case Some(v) => v
      case None => default
    }
  }

  /** White space as `String.prototype.trim` understands it. */
  predicate IsSpace(c: char) {
    || '\t' <= c <= '\r'
    || c == ' '
    || c == '\U{00A0}'
    || c == '\U{1680}'
    || '\U{2000}' <= c <= '\U{200A}'
    || c == '\U{2028}'
    || c == '\U{2029}'
    || c == '\U{202F}'
    || c == '\U{205F}'
    || c == '\U{3000}'
    || c == '\U{FEFF}'
  }

  function TrimStart(s: string): string {
    if s != "" && IsSpace(s[0]) then TrimStart(s[1..]) else s
  }

  function TrimEnd(s: string): string {
    if s != "" && IsSpace(s[|s| - 1]) then TrimEnd(s[..|s| - 1]) else s
  }

  function Trim(s: string): string {
    TrimEnd(TrimStart(s))
  }

  predicate Blank(s: string) {
    Trim(s) == ""
  }

  function UpperChar(c: char): char {
    if 'a' <= c <= 'z' then (c as int - 'a' as int + 'A' as int) as char else c
  }

  function LowerChar(c: char): char {
    if 'A' <= c <= 'Z' then (c as int - 'A' as int + 'a' as int) as char else c
  }

  function Upper(s: string): string {
    seq(|s|, i requires 0 <= i < |s| => UpperChar(s[i]))
  }

  function Lower(s: string): string {
    seq(|s|, i requires 0 <= i < |s| => LowerChar(s[i]))
  }

  predicate StartsWith(s: string, prefix: string) {
    |prefix| <= |s| && s[..|prefix|] == prefix
  }

  /** The same letter in either case, or the same character. */
  predicate SameLetter(a: char, b: char) {
    || a == b
    || ('a' <= a <= 'z' && a as int == b as int + 32)
    || ('a' <= b <= 'z' && b as int == a as int + 32)
  }

  predicate SameButCase(a: string, b: string) {
    |a| == |b| && forall i :: 0 <= i < |a| ==> SameLetter(a[i], b[i])
  }

  /** Mapping to one case forgets the case of letters and nothing else. */
  lemma CaseMappingsForgetCase(a: string, b: string)
    ensures Upper(a) == Upper(b) <==> SameButCase(a, b)
    ensures Lower(a) == Lower(b) <==> SameButCase(a, b)
    ensures SameButCase(a, Upper(a)) && SameButCase(a, Lower(a))
    ensures forall i :: 0 <= i < |a| ==> !('a' <= Upper(a)[i] <= 'z') && !('A' <= Lower(a)[i] <= 'Z')
  {
    if SameButCase(a, b) {
      assert forall i :: 0 <= i < |a| ==> SameLetter(a[i], b[i]) && Upper(a)[i] == Upper(b)[i];
      assert forall i :: 0 <= i < |a| ==> SameLetter(a[i], b[i]) && Lower(a)[i] == Lower(b)[i];
    }
    if Upper(a) == Upper(b) {
      forall i | 0 <= i < |a| ensures SameLetter(a[i], b[i]) { assert Upper(a)[i] == Upper(b)[i]; }
    }
    if Lower(a) == Lower(b) {
      forall i | 0 <= i < |a| ensures SameLetter(a[i], b[i]) { assert Lower(a)[i] == Lower(b)[i]; }
    }
  }

  /** Trimming drops white space from both ends and keeps the rest. */
  lemma TrimKeepsTheMiddle(s: string) returns (i: nat, j: nat)
    ensures i <= j <= |s| && Trim(s) == s[i..j] && OnlySpace(s[..i]) && OnlySpace(s[j..])
    ensures i < j ==> !IsSpace(s[i]) && !IsSpace(s[j - 1])
  {
    i := TrimStartKeepsTheRest(s);
    var k := TrimEndKeepsTheRest(s[i..]);
    j := i + k;
    assert s[i..][..k] == s[i..j] && s[i..][k..] == s[j..];
  }

  lemma {:induction false} TrimStartKeepsTheRest(s: string) returns (i: nat)
    ensures i <= |s| && TrimStart(s) == s[i..] && OnlySpace(s[..i]) && (i < |s| ==> !IsSpace(s[i]))
  {
    i := 0;
    if s != "" && IsSpace(s[0]) {
      i := TrimStartKeepsTheRest(s[1..]);
      assert s == [s[0]] + s[1..];
      i := i + 1;
    }
  }

  lemma {:induction false} TrimEndKeepsTheRest(s: string) returns (j: nat)
    ensures j <= |s| && TrimEnd(s) == s[..j] && OnlySpace(s[j..]) && (j > 0 ==> !IsSpace(s[j - 1]))
  {
    j := |s|;
    if s != "" && IsSpace(s[|s| - 1]) {
      j := TrimEndKeepsTheRest(s[..|s| - 1]);
      assert s == s[..|s| - 1] + [s[|s| - 1]];
    }
  }

  /** A string survives trimming exactly when it holds a character that is not white space. */
  lemma {:induction false} BlankMeansOnlySpace(s: string)
    ensures Blank(s) <==> forall i :: 0 <= i < |s| ==> IsSpace(s[i])
  {
    TrimStartKeepsInk(s);
    TrimEndKeepsInk(TrimStart(s));
  }

  predicate OnlySpace(s: string) {
    forall i :: 0 <= i < |s| ==> IsSpace(s[i])
  }

  lemma {:induction false} TrimStartKeepsInk(s: string)
    ensures OnlySpace(TrimStart(s)) <==> OnlySpace(s)
    ensures OnlySpace(TrimStart(s)) ==> TrimStart(s) == ""
  {
    if s != "" && IsSpace(s[0]) {
      TrimStartKeepsInk(s[1..]);
      assert s == [s[0]] + s[1..];
    }
  }

  lemma {:induction false} TrimEndKeepsInk(s: string)
    ensures OnlySpace(TrimEnd(s)) <==> OnlySpace(s)
  {
    if s != "" && IsSpace(s[|s| - 1]) {
      TrimEndKeepsInk(s[..|s| - 1]);
      assert s == s[..|s| - 1] + [s[|s| - 1]];
    }
  }
}
