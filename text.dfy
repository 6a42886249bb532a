/** The string operations of the JavaScript standard library the core relies on. */
module Text {
  import opened Wrappers

  /** JavaScript truthiness of an optional string: present and not empty. */
  predicate Present(s: Option<string>) {
    s.Some? && s.value != ""
  }

  /** The characters `String.prototype.trim` removes: WhiteSpace and LineTerminator of ECMAScript. */
  predicate IsJsWhitespace(c: char) {
    || c == '\t' || c == '\n' || c == '\U{000B}' || c == '\U{000C}' || c == '\r' || c == ' '
    || c == '\U{00A0}' || c == '\U{1680}' || ('\U{2000}' <= c <= '\U{200A}')
    || c == '\U{2028}' || c == '\U{2029}' || c == '\U{202F}' || c == '\U{205F}'
    || c == '\U{3000}' || c == '\U{FEFF}'
  }

  predicate AllWhitespace(s: string) {
    forall i :: 0 <= i < |s| ==> IsJsWhitespace(s[i])
  }

  function TrimStart(s: string): string {
    if s != [] && IsJsWhitespace(s[0]) then TrimStart(s[1..]) else s
  }

  function TrimEnd(s: string): string {
    if s != [] && IsJsWhitespace(s[|s| - 1]) then TrimEnd(s[..|s| - 1]) else s
  }

  /** `s.trim()`. */
  function Trim(s: string): string {
    TrimEnd(TrimStart(s))
  }

  lemma {:induction false} TrimStartIsSuffix(s: string)
    ensures |TrimStart(s)| <= |s| && TrimStart(s) == s[|s| - |TrimStart(s)|..]
    ensures TrimStart(s) == [] || !IsJsWhitespace(TrimStart(s)[0])
    ensures AllWhitespace(s[..|s| - |TrimStart(s)|])
  {
    if s != [] && IsJsWhitespace(s[0]) {
      TrimStartIsSuffix(s[1..]);
      var t := TrimStart(s[1..]);
      assert s[1..][..|s| - 1 - |t|] == s[1..|s| - |t|];
      assert s[..|s| - |t|] == [s[0]] + s[1..|s| - |t|];
    }
  }

  lemma {:induction false} TrimEndIsPrefix(s: string)
    ensures |TrimEnd(s)| <= |s| && TrimEnd(s) == s[..|TrimEnd(s)|]
    ensures TrimEnd(s) == [] || !IsJsWhitespace(TrimEnd(s)[|TrimEnd(s)| - 1])
    ensures AllWhitespace(s[|TrimEnd(s)|..])
  {
    if s != [] && IsJsWhitespace(s[|s| - 1]) {
      TrimEndIsPrefix(s[..|s| - 1]);
      var t := TrimEnd(s[..|s| - 1]);
      assert s[..|s| - 1][|t|..] + [s[|s| - 1]] == s[|t|..];
    }
  }

  /** A prefix that does not end in whitespace is left alone by TrimEnd, and so its first character survives. */
  lemma {:induction false} TrimEndKeepsHead(s: string)
    requires s != [] && !IsJsWhitespace(s[0])
    ensures TrimEnd(s) != [] && TrimEnd(s)[0] == s[0]
  {
    if IsJsWhitespace(s[|s| - 1]) {
      TrimEndKeepsHead(s[..|s| - 1]);
    }
  }

  /** The trimmed string neither starts nor ends with whitespace, and trimming twice changes nothing. */
  lemma TrimmedHasNoOuterWhitespace(s: string)
    ensures Trim(s) == [] || (!IsJsWhitespace(Trim(s)[0]) && !IsJsWhitespace(Trim(s)[|Trim(s)| - 1]))
    ensures TrimStart(Trim(s)) == Trim(s) && TrimEnd(Trim(s)) == Trim(s)
  {
    TrimStartIsSuffix(s);
    TrimEndIsPrefix(TrimStart(s));
    if TrimStart(s) != [] {
      TrimEndKeepsHead(TrimStart(s));
    }
  }

  lemma TrimIdempotent(s: string)
    ensures Trim(Trim(s)) == Trim(s)
  {
    TrimmedHasNoOuterWhitespace(s);
  }

  lemma {:induction false} TrimStartEmptyIffAllWhitespace(s: string)
    ensures TrimStart(s) == [] <==> AllWhitespace(s)
  {
    if s != [] && IsJsWhitespace(s[0]) {
      TrimStartEmptyIffAllWhitespace(s[1..]);
      assert AllWhitespace(s) <==> AllWhitespace(s[1..]) by {
        if AllWhitespace(s[1..]) {
          forall i | 0 <= i < |s| ensures IsJsWhitespace(s[i]) {
            if i > 0 { assert s[i] == s[1..][i - 1]; }
          }
        }
      }
    }
  }

  lemma TrimEndOfEmpty()
    ensures TrimEnd([]) == []
  {
  }

  /** `!s.trim()` holds exactly for the strings made only of whitespace (the empty string included). */
  lemma TrimEmptyIffAllWhitespace(s: string)
    ensures Trim(s) == [] <==> AllWhitespace(s)
  {
    TrimStartEmptyIffAllWhitespace(s);
    if TrimStart(s) != [] {
      TrimStartIsSuffix(s);
      TrimEndKeepsHead(TrimStart(s));
    }
  }

  predicate StartsWith(s: string, prefix: string) {
    |prefix| <= |s| && s[..|prefix|] == prefix
  }

  /** `s.endsWith(suffix)`. */
  predicate EndsWith(s: string, suffix: string) {
    |suffix| <= |s| && s[|s| - |suffix|..] == suffix
  }

  /** `s.includes(sub)`: `sub` occurs somewhere in `s`. */
  predicate Includes(s: string, sub: string)
    decreases |s|
  {
    StartsWith(s, sub) || (s != [] && Includes(s[1..], sub))
  }

  /** A string never includes a longer one. */
  lemma {:induction false} IncludesNeedsRoom(s: string, sub: string)
    requires |s| < |sub|
    ensures !Includes(s, sub)
  {
    if s != [] {
      IncludesNeedsRoom(s[1..], sub);
    }
  }

  lemma {:induction false} IncludesAt(s: string, sub: string, i: nat)
    requires i + |sub| <= |s| && s[i..i + |sub|] == sub
    ensures Includes(s, sub)
  {
    if i > 0 {
      assert s[1..][i - 1..i - 1 + |sub|] == s[i..i + |sub|];
      IncludesAt(s[1..], sub, i - 1);
    }
  }

  lemma {:induction false} IncludesWitness(s: string, sub: string) returns (i: nat)
    requires Includes(s, sub)
    ensures i + |sub| <= |s| && s[i..i + |sub|] == sub
  {
    if StartsWith(s, sub) {
      i := 0;
    } else {
      var j := IncludesWitness(s[1..], sub);
      assert s[1..][j..j + |sub|] == s[j + 1..j + 1 + |sub|];
      i := j + 1;
    }
  }

  /** Lower-cases the ASCII letters; other characters are kept. */
  function LowerChar(c: char): char {
    if 'A' <= c <= 'Z' then (c as int + 32) as char else c
  }

  function ToLowerAscii(s: string): (r: string)
    ensures |r| == |s|
    ensures forall i :: 0 <= i < |s| ==> r[i] == LowerChar(s[i])
  {
    seq(|s|, i requires 0 <= i < |s| => LowerChar(s[i]))
  }

  /** `s.split("/").pop() || ""`: the text after the last "/", all of `s` when it has no "/". */
  function LastSegment(s: string): (r: string)
    ensures '/' !in r
    ensures EndsWith(s, r)
  {
    if s == [] || s[|s| - 1] == '/' then []
    else
      var r := LastSegment(s[..|s| - 1]) + [s[|s| - 1]];
      assert s[|s| - |r|..] == s[..|s| - 1][|s| - |r|..] + [s[|s| - 1]];
      r
  }

  /** The last segment is everything after the last "/": the whole text when it has none, and otherwise the part
      that a "/" precedes. */
  lemma {:induction false} LastSegmentFollowsSlash(s: string)
    ensures '/' !in s ==> LastSegment(s) == s
    ensures '/' in s ==> |LastSegment(s)| < |s| && s[|s| - |LastSegment(s)| - 1] == '/'
  {
    if s != [] && s[|s| - 1] != '/' {
      var init := s[..|s| - 1];
      LastSegmentFollowsSlash(init);
      assert '/' !in s ==> '/' !in init;
      assert '/' in s ==> '/' in init by {
        if '/' in s {
          var k :| 0 <= k < |s| && s[k] == '/';
          assert init[k] == '/';
        }
      }
      assert LastSegment(s) == LastSegment(init) + [s[|s| - 1]];
      assert '/' in init ==> s[|s| - |LastSegment(s)| - 1] == init[|init| - |LastSegment(init)| - 1];
    }
  }

  /** A file name without "/" comes back from the last segment of any path that ends with "/" and the name. */
  lemma {:induction false} LastSegmentOfPath(dir: string, name: string)
    requires '/' !in name
    ensures LastSegment(dir + "/" + name) == name
  {
    if name != [] {
      var init := name[..|name| - 1];
      assert (dir + "/" + name)[..|dir + "/" + name| - 1] == dir + "/" + init;
      LastSegmentOfPath(dir, init);
      assert init + [name[|name| - 1]] == name;
    } else {
      assert dir + "/" + name == dir + "/";
    }
  }
}
