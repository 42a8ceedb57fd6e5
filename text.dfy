/**
 * String helpers shared by the models: the JavaScript string operations the
 * site relies on (`toLowerCase`, `toUpperCase` on one character, `includes`,
 * `startsWith`, `trim`, and `replace`/`split`-`join` of one character),
 * restricted to what the site's inputs need.
 *
 * Case mapping covers the ASCII letters only; every other character is left
 * as it is.
 */
module Text {

  predicate IsAsciiUpper(c: char) { 'A' <= c <= 'Z' }

  predicate IsAsciiLower(c: char) { 'a' <= c <= 'z' }

  function ToLowerChar(c: char): char
  {
    if IsAsciiUpper(c) then (c as int + 32) as char else c
  }

  function ToUpperChar(c: char): char
  {
    if IsAsciiLower(c) then (c as int - 32) as char else c
  }

  /** `s.toLowerCase()` */
  function ToLower(s: string): string
  {
    if s == [] then [] else [ToLowerChar(s[0])] + ToLower(s[1..])
  }

  /** `s.startsWith(p)` */
  predicate IsPrefix(p: string, s: string)
  {
    |p| <= |s| && s[..|p|] == p
  }

  /** `s.includes(sub)`: `sub` occurs somewhere in `s` */
  predicate Contains(s: string, sub: string)
    decreases |s|
  {
    IsPrefix(sub, s) || (|s| > 0 && Contains(s[1..], sub))
  }

  /** A character `trim()` removes: JavaScript white space and line terminators. */
  predicate IsSpace(c: char)
  {
    c == ' ' || c == '\t' || c == '\n' || c == '\r' || c == '\U{B}' || c == '\U{C}'
    || c == '\U{A0}' || c == '\U{1680}' || ('\U{2000}' <= c <= '\U{200A}')
    || c == '\U{2028}' || c == '\U{2029}' || c == '\U{202F}' || c == '\U{205F}'
    || c == '\U{3000}' || c == '\U{FEFF}'
  }

  function TrimStart(s: string): string
  {
    if s != [] && IsSpace(s[0]) then TrimStart(s[1..]) else s
  }

  function TrimEnd(s: string): string
  {
    if s != [] && IsSpace(s[|s| - 1]) then TrimEnd(s[..|s| - 1]) else s
  }

  /** `s.trim()` */
  function Trim(s: string): string
  {
    TrimEnd(TrimStart(s))
  }

  /** The characters `.` does not match in a regular expression. */
  predicate IsLineTerminator(c: char)
  {
    c == '\n' || c == '\r' || c == '\U{2028}' || c == '\U{2029}'
  }

  /** `s.replace(/^./, str => str.toUpperCase())` */
  function CapitalizeFirst(s: string): string
  {
    if s != [] && !IsLineTerminator(s[0]) then [ToUpperChar(s[0])] + s[1..] else s
  }

  /** `s.trim() === ""`: the guard every chat input goes through */
  predicate IsBlank(s: string)
  {
    Trim(s) == ""
  }

  /** Every occurrence of `c` in `s` replaced by `rep` (`s.split(c).join(rep)`, `s.replace(/c/g, rep)`). */
  function ReplaceChar(s: string, c: char, rep: string): string
  {
    if s == [] then []
    else (if s[0] == c then rep else [s[0]]) + ReplaceChar(s[1..], c, rep)
  }

  /** `lines.join(sep)` */
  function Join(lines: seq<string>, sep: string): string
  {
    if lines == [] then ""
    else if |lines| == 1 then lines[0]
    else lines[0] + sep + Join(lines[1..], sep)
  }

  // ---------------------------------------------------------------------
  // Lemmas

  /** `sub` occurs in `s` starting at index `i`. */
  predicate OccursAt(s: string, sub: string, i: int)
  {
    0 <= i && i + |sub| <= |s| && s[i..i + |sub|] == sub
  }

  /** A window of `s` past its first character is the same window of `s[1..]`, one place earlier. */
  lemma ShiftedWindow(s: string, j: nat, n: nat)
    requires 1 <= j && j + n <= |s|
    ensures s[j..j + n] == s[1..][j - 1..j - 1 + n]
  {
    forall i | j <= i < j + n
      ensures s[1..][i - 1] == s[i]
    {
    }
    assert s[j..j + n] == s[1..][j - 1..j - 1 + n];
  }

  /** `Contains` agrees with the positional reading of `includes`, in both directions. */
  lemma {:induction false} ContainsIff(s: string, sub: string)
    ensures Contains(s, sub) <==> exists i :: OccursAt(s, sub, i)
    decreases |s|
  {
    if IsPrefix(sub, s) {
      assert OccursAt(s, sub, 0);
    } else if |s| > 0 {
      ContainsIff(s[1..], sub);
      if Contains(s[1..], sub) {
        var i :| OccursAt(s[1..], sub, i);
        ShiftedWindow(s, i + 1, |sub|);
        assert OccursAt(s, sub, i + 1);
      } else {
        forall i | OccursAt(s, sub, i)
          ensures false
        {
          if i > 0 {
            ShiftedWindow(s, i, |sub|);
            assert OccursAt(s[1..], sub, i - 1);
          }
        }
      }
    } else {
      assert |sub| > 0;
    }
  }

  /** An occurrence at a known position is found by `includes`. */
  lemma ContainsAt(s: string, sub: string, i: nat)
    requires i + |sub| <= |s| && s[i..i + |sub|] == sub
    ensures Contains(s, sub)
  {
    assert OccursAt(s, sub, i);
    ContainsIff(s, sub);
  }

  /** A pattern holding a character the text lacks does not occur in it. */
  lemma {:induction false} MissingChar(s: string, sub: string, c: char)
    requires c in sub && c !in s
    ensures !Contains(s, sub)
    decreases |s|
  {
    if |s| > 0 {
      MissingChar(s[1..], sub, c);
    }
    if |sub| <= |s| {
      assert c in s[..|sub|] ==> c in s;
    }
  }

  /** Whatever contains `a + sub + b`'s middle part contains `sub`. */
  lemma ContainsInfix(a: string, sub: string, b: string)
    ensures Contains(a + sub + b, sub)
  {
    assert (a + sub + b)[|a|..|a| + |sub|] == sub;
    ContainsAt(a + sub + b, sub, |a|);
  }

  /** Whatever contains a pattern contains every piece of it. */
  lemma ContainsPiece(s: string, sub: string, a: nat, part: string)
    requires Contains(s, sub)
    requires a + |part| <= |sub| && sub[a..a + |part|] == part
    ensures Contains(s, part)
  {
    ContainsIff(s, sub);
    var i :| OccursAt(s, sub, i);
    forall k | 0 <= k < |part|
      ensures s[i + a + k] == part[k]
    {
      assert s[i..i + |sub|][a + k] == s[i + a + k];
      assert sub[a..a + |part|][k] == sub[a + k];
    }
    assert s[i + a..i + a + |part|] == part;
    ContainsAt(s, part, i + a);
  }

  /** `toLowerCase` keeps the length and maps each character on its own. */
  lemma {:induction false} ToLowerPointwise(s: string)
    ensures |ToLower(s)| == |s|
    ensures forall i :: 0 <= i < |s| ==> ToLower(s)[i] == ToLowerChar(s[i])
    decreases |s|
  {
    if s != [] {
      ToLowerPointwise(s[1..]);
    }
  }

  /** `toLowerCase` leaves text without capitals untouched. */
  lemma {:induction false} LowerId(s: string)
    requires forall c :: c in s ==> !IsAsciiUpper(c)
    ensures ToLower(s) == s
    decreases |s|
  {
    if s != [] {
      assert s[0] in s;
      assert forall c :: c in s[1..] ==> c in s;
      LowerId(s[1..]);
    }
  }

  /** Lower-casing twice is lower-casing once. */
  lemma ToLowerIdempotent(s: string)
    ensures ToLower(ToLower(s)) == ToLower(s)
  {
    ToLowerPointwise(s);
    forall c | c in ToLower(s) ensures !IsAsciiUpper(c) {
      var i :| 0 <= i < |ToLower(s)| && ToLower(s)[i] == c;
    }
    LowerId(ToLower(s));
  }

  lemma {:induction false} ToLowerAppend(a: string, b: string)
    ensures ToLower(a + b) == ToLower(a) + ToLower(b)
    decreases |a|
  {
    if a != [] {
      assert (a + b)[0] == a[0] && (a + b)[1..] == a[1..] + b;
      ToLowerAppend(a[1..], b);
    } else {
      assert a + b == b;
    }
  }

  /** A string is blank exactly when every character in it is white space. */
  lemma {:induction false} BlankIff(s: string)
    ensures IsBlank(s) <==> forall i :: 0 <= i < |s| ==> IsSpace(s[i])
  {
    TrimStartAllSpace(s);
    TrimEndKeepsNonEmpty(TrimStart(s));
  }

  lemma {:induction false} TrimStartAllSpace(s: string)
    ensures TrimStart(s) == [] <==> forall i :: 0 <= i < |s| ==> IsSpace(s[i])
    ensures TrimStart(s) != [] ==> !IsSpace(TrimStart(s)[0])
    decreases |s|
  {
    if s != [] && IsSpace(s[0]) {
      TrimStartAllSpace(s[1..]);
      if TrimStart(s) != [] {
        var i :| 0 <= i < |s[1..]| && !IsSpace(s[1..][i]);
        assert !IsSpace(s[i + 1]);
      }
    }
  }

  lemma {:induction false} TrimEndKeepsNonEmpty(s: string)
    requires s != [] ==> !IsSpace(s[0])
    ensures TrimEnd(s) == [] <==> s == []
    decreases |s|
  {
    if s != [] && IsSpace(s[|s| - 1]) {
      assert |s| > 1;
      TrimEndKeepsNonEmpty(s[..|s| - 1]);
    }
  }

  /** `trim` does nothing to a string that neither starts nor ends with white space. */
  lemma TrimNoop(s: string)
    requires s != [] ==> !IsSpace(s[0]) && !IsSpace(s[|s| - 1])
    ensures Trim(s) == s
  {
  }

  /** `ReplaceChar` works piece by piece. */
  lemma {:induction false} ReplaceAppend(a: string, b: string, c: char, rep: string)
    ensures ReplaceChar(a + b, c, rep) == ReplaceChar(a, c, rep) + ReplaceChar(b, c, rep)
    decreases |a|
  {
    if a != [] {
      assert (a + b)[0] == a[0] && (a + b)[1..] == a[1..] + b;
      ReplaceAppend(a[1..], b, c, rep);
    } else {
      assert a + b == b;
    }
  }

  /** `ReplaceChar` leaves a string without `c` untouched. */
  lemma {:induction false} ReplaceAbsent(s: string, c: char, rep: string)
    requires c !in s
    ensures ReplaceChar(s, c, rep) == s
    decreases |s|
  {
    if s != [] {
      assert forall x :: x in s[1..] ==> x in s;
      ReplaceAbsent(s[1..], c, rep);
    }
  }

  /** Replacing `c` by a text without `c` leaves no `c` behind. */
  lemma {:induction false} ReplaceRemoves(s: string, c: char, rep: string)
    requires c !in rep
    ensures c !in ReplaceChar(s, c, rep)
    decreases |s|
  {
    if s != [] {
      ReplaceRemoves(s[1..], c, rep);
    }
  }

  /**
   * Splitting on `c` and joining with `rep`: lines that hold no `c`, joined
   * with `c`, come out joined with `rep` instead, line for line.
   */
  lemma {:induction false} ReplaceJoin(lines: seq<string>, c: char, rep: string)
    requires forall k :: 0 <= k < |lines| ==> c !in lines[k]
    ensures ReplaceChar(Join(lines, [c]), c, rep) == Join(lines, rep)
    decreases |lines|
  {
    if |lines| == 1 {
      ReplaceAbsent(lines[0], c, rep);
    } else if |lines| > 1 {
      ReplaceJoin(lines[1..], c, rep);
      ReplaceAbsent(lines[0], c, rep);
      ReplaceAppend(lines[0], [c] + Join(lines[1..], [c]), c, rep);
      ReplaceAppend([c], Join(lines[1..], [c]), c, rep);
      assert lines[0] + [c] + Join(lines[1..], [c]) == lines[0] + ([c] + Join(lines[1..], [c]));
    }
  }
}
