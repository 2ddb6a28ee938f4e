/** Substrings and line joins. */
module Text {
  import opened Sequences

  predicate ContainsAt(s: string, t: string, i: nat) {
    i + |t| <= |s| && s[i..i + |t|] == t
  }

  predicate Contains(s: string, t: string) {
    exists i: nat | i <= |s| :: ContainsAt(s, t, i)
  }

  /** `parts.join("\n")`. */
  function JoinLines(parts: seq<string>): string {
    if parts == [] then ""
    else if |parts| == 1 then parts[0]
    else parts[0] + "\n" + JoinLines(parts[1..])
  }

  lemma JoinLinesCons(x: string, rest: seq<string>)
    requires rest != []
    ensures JoinLines([x] + rest) == x + "\n" + JoinLines(rest)
  {
  }

  lemma {:induction false} JoinLinesAppend(a: seq<string>, b: seq<string>)
    requires a != [] && b != []
    ensures JoinLines(a + b) == JoinLines(a) + "\n" + JoinLines(b)
  {
    assert a + b == [a[0]] + (a[1..] + b);
    if |a| > 1 {
      JoinLinesAppend(a[1..], b);
      assert a == [a[0]] + a[1..];
    } else {
      assert a[1..] + b == b;
    }
  }

  // ---- trimming ------------------------------------------------------------------------------------

  /** Unicode's White_Space, as Rust's `trim` uses it. */
  predicate IsWhite(c: char) {
    var n := c as int;
    || 0x09 <= n <= 0x0D || n == 0x20 || n == 0x85 || n == 0xA0 || n == 0x1680
    || 0x2000 <= n <= 0x200A || n == 0x2028 || n == 0x2029 || n == 0x202F || n == 0x205F || n == 0x3000
  }

  function TrimStart(s: string): string {
    if s != "" && IsWhite(s[0]) then TrimStart(s[1..]) else s
  }

  function TrimEnd(s: string): string {
    if s != "" && IsWhite(s[|s| - 1]) then TrimEnd(s[..|s| - 1]) else s
  }

  function Trim(s: string): string {
    TrimEnd(TrimStart(s))
  }

  predicate Trimmed(s: string) {
    Trim(s) == s && s != ""
  }

  lemma {:induction false} TrimEndKeepsHead(s: string)
    requires s != "" && !IsWhite(s[0])
    ensures TrimEnd(s) != "" && TrimEnd(s)[0] == s[0]
  {
    if IsWhite(s[|s| - 1]) {
      TrimEndKeepsHead(s[..|s| - 1]);
    }
  }

  predicate Tight(s: string) {
    s != "" && !IsWhite(s[0]) && !IsWhite(s[|s| - 1])
  }

  lemma {:induction false} TrimIsTight(s: string)
    ensures Trim(s) == "" || Tight(Trim(s))
    ensures Tight(s) ==> Trim(s) == s
  {
    TrimStartIsTight(s);
    TrimEndIsTight(TrimStart(s));
    if TrimStart(s) != "" {
      TrimEndKeepsHead(TrimStart(s));
    }
  }

  lemma {:induction false} TrimStartIsTight(s: string)
    ensures TrimStart(s) == "" || !IsWhite(TrimStart(s)[0])
  {
    if s != "" && IsWhite(s[0]) {
      TrimStartIsTight(s[1..]);
    }
  }

  lemma {:induction false} TrimEndIsTight(s: string)
    ensures TrimEnd(s) == "" || !IsWhite(TrimEnd(s)[|TrimEnd(s)| - 1])
  {
    if s != "" && IsWhite(s[|s| - 1]) {
      TrimEndIsTight(s[..|s| - 1]);
    }
  }

  /** A string is its own trim when it has something other than white space at both ends. */
  lemma TrimmedIffTight(s: string)
    ensures Trimmed(s) <==> Tight(s)
    ensures Trim(s) != "" ==> Trimmed(Trim(s))
  {
    TrimIsTight(s);
    TrimIsTight(Trim(s));
  }

  predicate AllWhite(s: string) {
    forall i :: 0 <= i < |s| ==> IsWhite(s[i])
  }

  lemma {:induction false} TrimStartCuts(s: string) returns (i: nat)
    ensures i <= |s| && TrimStart(s) == s[i..] && AllWhite(s[..i])
  {
    i := 0;
    if s != "" && IsWhite(s[0]) {
      var j := TrimStartCuts(s[1..]);
      i := j + 1;
      assert s[..i] == [s[0]] + s[1..][..j];
    }
  }

  lemma {:induction false} TrimEndCuts(s: string) returns (j: nat)
    ensures j <= |s| && TrimEnd(s) == s[..j] && AllWhite(s[j..])
  {
    j := |s|;
    if s != "" && IsWhite(s[|s| - 1]) {
      j := TrimEndCuts(s[..|s| - 1]);
      assert s[j..] == s[..|s| - 1][j..] + [s[|s| - 1]];
    }
  }

  /** Trimming takes off white space at both ends and nothing else. */
  lemma TrimCuts(s: string) returns (i: nat, j: nat)
    ensures i <= j <= |s| && Trim(s) == s[i..j] && AllWhite(s[..i]) && AllWhite(s[j..])
  {
    i := TrimStartCuts(s);
    var k := TrimEndCuts(s[i..]);
    j := i + k;
    assert s[j..] == s[i..][k..] && s[i..j] == s[i..][..k];
  }

  lemma {:induction false} TrimStartBefore(s: string, c: char)
    requires IsWhite(c)
    ensures TrimStart(s + [c]) == if TrimStart(s) == "" then "" else TrimStart(s) + [c]
  {
    if s != "" && IsWhite(s[0]) {
      TrimStartBefore(s[1..], c);
      assert (s + [c])[1..] == s[1..] + [c];
    } else if s == "" {
      assert (s + [c])[1..] == "";
    }
  }

  /** White space after a text does not matter; the carriage return of a CR LF line is one case. */
  lemma TrimIgnoresWhite(s: string, c: char)
    requires IsWhite(c)
    ensures Trim(s + [c]) == Trim(s)
  {
    TrimStartBefore(s, c);
    var t := TrimStart(s);
    if t != "" {
      assert (t + [c])[..|t|] == t;
    }
  }

  // ---- letter case ---------------------------------------------------------------------------------

  function LowerChar(c: char): char {
    if 'A' <= c <= 'Z' then ((c as int) + 32) as char else c
  }

  function Lower(s: string): string {
    Map(s, LowerChar)
  }

  /** Names differ in more than letter case: same length, and each letter alike up to the ASCII case. */
  lemma SameLowerIff(a: string, b: string)
    ensures Lower(a) == Lower(b) <==>
            |a| == |b| && forall i :: 0 <= i < |a| ==>
              || a[i] == b[i]
              || ('A' <= a[i] <= 'Z' && b[i] as int == a[i] as int + 32)
              || ('A' <= b[i] <= 'Z' && a[i] as int == b[i] as int + 32)
  {
    if |a| == |b| {
      forall i | 0 <= i < |a|
        ensures LowerChar(a[i]) == LowerChar(b[i]) <==>
                || a[i] == b[i]
                || ('A' <= a[i] <= 'Z' && b[i] as int == a[i] as int + 32)
                || ('A' <= b[i] <= 'Z' && a[i] as int == b[i] as int + 32)
      {
      }
      assert Lower(a) == Lower(b) <==> forall i :: 0 <= i < |a| ==> Lower(a)[i] == Lower(b)[i];
    }
  }

  lemma OccurrenceBeforeBreak(a: string, b: string, t: string, i: nat)
    requires i <= |a| && '\n' !in t && t != ""
    ensures ContainsAt(a + "\n" + b, t, i) <==> ContainsAt(a, t, i)
  {
    var s := a + "\n" + b;
    if ContainsAt(s, t, i) {
      forall j | i <= j < i + |t| ensures s[j] != '\n' {
        assert s[j] == t[j - i];
      }
      assert s[|a|] == '\n';
      assert i + |t| <= |a|;
    }
    if i + |t| <= |a| {
      assert a[i..i + |t|] == s[i..i + |t|];
    }
  }

  lemma OccurrenceAfterBreak(a: string, b: string, t: string, i: nat)
    ensures ContainsAt(a + "\n" + b, t, i + |a| + 1) <==> ContainsAt(b, t, i)
  {
  }

  /** A text without line breaks that occurs in a join of two lines occurs within one of them. */
  lemma OneSideOfBreak(a: string, b: string, t: string)
    requires t != "" && '\n' !in t
    ensures Contains(a + "\n" + b, t) <==> Contains(a, t) || Contains(b, t)
  {
    var s := a + "\n" + b;
    if Contains(s, t) {
      var i: nat :| i <= |s| && ContainsAt(s, t, i);
      if i <= |a| {
        OccurrenceBeforeBreak(a, b, t, i);
      } else {
        OccurrenceAfterBreak(a, b, t, i - |a| - 1);
      }
    }
    if Contains(a, t) {
      var i: nat :| i <= |a| && ContainsAt(a, t, i);
      OccurrenceBeforeBreak(a, b, t, i);
    }
    if Contains(b, t) {
      var i: nat :| i <= |b| && ContainsAt(b, t, i);
      OccurrenceAfterBreak(a, b, t, i);
    }
  }

  lemma LowerBreak(a: string, b: string)
    ensures Lower(a + "\n" + b) == Lower(a) + "\n" + Lower(b)
  {
  }

  lemma {:induction false} ContainedInOneLine(parts: seq<string>, t: string)
    requires t != "" && '\n' !in t
    ensures Contains(Lower(JoinLines(parts)), t) <==> exists p :: p in parts && Contains(Lower(p), t)
  {
    if |parts| == 1 {
      assert parts[0] in parts;
    } else if parts != [] {
      ContainedInOneLine(parts[1..], t);
      LowerBreak(parts[0], JoinLines(parts[1..]));
      OneSideOfBreak(Lower(parts[0]), Lower(JoinLines(parts[1..])), t);
      assert forall p :: p in parts <==> p == parts[0] || p in parts[1..];
    }
  }
}
